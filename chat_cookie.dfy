/** `getCookie` of the chat page (public/js/chat.js): the cookie string is
    prefixed with "; ", split at "; <name>=", and the value is read from the
    last piece up to the next ';' when the split gave exactly two pieces. */
module ChatCookie {
  import opened Common
  import opened Text

  /** The first position at or after `i` where `sep` occurs, or -1. */
  function FindFrom(hay: string, sep: string, i: nat): (j: int)
    requires sep != []
    ensures j == -1 || (i <= j && OccursAt(hay, sep, j))
    ensures j >= 0 ==> forall k :: i <= k < j ==> !OccursAt(hay, sep, k)
    decreases |hay| - i
  {
    if i + |sep| > |hay| then -1
    else if hay[i..i + |sep|] == sep then i
    else FindFrom(hay, sep, i + 1)
  }

  /** Where `hay.split(sep)` cuts, from position `i` on: the occurrences of
      `sep`, left to right and without overlap. The pieces are one more than
      the cuts. */
  function Cuts(hay: string, sep: string, i: nat): (r: seq<nat>)
    requires sep != [] && i <= |hay|
    decreases |hay| - i
  {
    var j := FindFrom(hay, sep, i);
    if j < 0 then [] else [j as nat] + Cuts(hay, sep, j + |sep|)
  }

  /** The split makes two pieces exactly when the separator occurs, and does
      not occur again after its first occurrence. */
  lemma CutsOnce(hay: string, sep: string)
    requires sep != []
    ensures var j := FindFrom(hay, sep, 0);
            |Cuts(hay, sep, 0)| == 1 <==> j >= 0 && FindFrom(hay, sep, j + |sep|) < 0
  {
    var j := FindFrom(hay, sep, 0);
    if j >= 0 {
      assert OccursAt(hay, sep, j);
      var k := j + |sep|;
      var rest := Cuts(hay, sep, k);
      assert Cuts(hay, sep, 0) == [j as nat] + rest;
      assert rest == [] <==> FindFrom(hay, sep, k) < 0;
    }
  }

  /** `s.split(c).shift()`: the text before the first `c`. */
  function UpTo(s: string, c: char): (r: string)
    ensures r <= s && c !in r
    ensures |r| == |s| || s[|r|] == c
  {
    if s == [] || s[0] == c then [] else [s[0]] + UpTo(s[1..], c)
  }

  /** The marker `getCookie` splits at. */
  function Marker(name: string): string {
    "; " + name + "="
  }

  /** `getCookie(name)` over `document.cookie`: a value exactly when the
      marker occurs once in "; " + cookie (counting occurrences that do not
      overlap), and then the value is the text after it up to the next ';'. */
  function GetCookie(cookie: string, name: string): (r: Option<string>)
    ensures r.Some? ==> ';' !in r.value
    ensures r.Some? <==> |Cuts("; " + cookie, Marker(name), 0)| == 1
    ensures var v := "; " + cookie; var m := Marker(name);
      var j := FindFrom(v, m, 0);
      r.Some? <==> (j >= 0 && FindFrom(v, m, j + |m|) < 0)
    ensures r.Some? ==>
      var v := "; " + cookie; var m := Marker(name);
      var j := FindFrom(v, m, 0);
      j >= 0 && OccursAt(v, m, j) && r.value == UpTo(v[j + |m|..], ';')
  {
    var value := "; " + cookie;
    var marker := Marker(name);
    var cuts := Cuts(value, marker, 0);
    CutsOnce(value, marker);
    if |cuts| == 1 then Some(UpTo(value[cuts[0] + |marker|..], ';')) else None
  }

  /** Positions without the separator's first character are passed over. */
  lemma {:induction false} FindFromSkips(hay: string, sep: string, i: nat, j: nat)
    requires sep != [] && i <= j
    requires forall k :: i <= k < j && k < |hay| ==> hay[k] != sep[0]
    ensures FindFrom(hay, sep, i) == FindFrom(hay, sep, j)
    decreases j - i
  {
    if i < j && i + |sep| <= |hay| {
      assert hay[i..i + |sep|][0] == hay[i];
      FindFromSkips(hay, sep, i + 1, j);
    }
  }

  /** A value without ';' and text without ';' after it: the value is read
      whole. */
  lemma UpToWhole(v: string, c: char)
    requires c !in v
    ensures UpTo(v, c) == v
  {
    if v != [] {
      UpToWhole(v[1..], c);
      assert v == [v[0]] + v[1..];
    }
  }

  /** After the last cut: no ';' left means no further cut. */
  lemma NoMoreCuts(hay: string, name: string, i: nat)
    requires i <= |hay|
    requires forall k :: i <= k < |hay| ==> hay[k] != ';'
    ensures Cuts(hay, Marker(name), i) == []
  {
    var m := Marker(name);
    assert m[0] == ';';
    FindFromSkips(hay, m, i, |hay|);
  }

  /** A jar holding only `name=v` gives `v`. */
  lemma GetCookieSingle(name: string, v: string)
    requires ';' !in name && ';' !in v
    ensures GetCookie(name + "=" + v, name) == Some(v)
  {
    var value := "; " + (name + "=" + v);
    var m := Marker(name);
    assert value == m + v;
    assert OccursAt(value, m, 0) by {
      assert value[0..|m|] == m;
    }
    assert FindFrom(value, m, 0) == 0;
    NoMoreCuts(value, name, |m|) by {
      forall k | |m| <= k < |value|
        ensures value[k] != ';'
      {
        assert value[k] == v[k - |m|];
      }
    }
    assert value[|m|..] == v;
    UpToWhole(v, ';');
  }

  /** A jar where `name` is set twice gives null: the split makes three
      pieces. */
  lemma GetCookieTwice(name: string, v: string, w: string)
    requires ';' !in name && ';' !in v && ';' !in w
    ensures GetCookie(name + "=" + v + "; " + name + "=" + w, name) == None
  {
    var m := Marker(name);
    var hay := "; " + (name + "=" + v + "; " + name + "=" + w);
    var second := |m| + |v|;
    assert hay == m + v + m + w;
    assert hay[0..|m|] == m;
    assert hay[second..second + |m|] == m;
    forall k | |m| <= k < second
      ensures hay[k] != ';'
    {
      assert hay[k] == v[k - |m|];
    }
    forall k | second + |m| <= k < |hay|
      ensures hay[k] != ';'
    {
      assert hay[k] == w[k - second - |m|];
    }
    TwoCuts(hay, m, second);
  }

  /** A marker at the start and one more later, with no ';' elsewhere after
      the first: two cuts. */
  lemma TwoCuts(hay: string, m: string, second: nat)
    requires m != [] && m[0] == ';' && |m| <= second
    requires OccursAt(hay, m, 0) && OccursAt(hay, m, second)
    requires forall k :: |m| <= k < second ==> hay[k] != ';'
    requires forall k :: second + |m| <= k < |hay| ==> hay[k] != ';'
    ensures Cuts(hay, m, 0) == [0, second]
  {
    LastCut(hay, m, second + |m|);
    CutAt(hay, m, |m|, second);
    CutAt(hay, m, 0, 0);
  }

  /** The next cut from `i` is at `j` when the marker occurs there and no
      ';' comes before it. */
  lemma CutAt(hay: string, m: string, i: nat, j: nat)
    requires m != [] && m[0] == ';' && i <= j && OccursAt(hay, m, j)
    requires forall k :: i <= k < j ==> hay[k] != ';'
    ensures Cuts(hay, m, i) == [j] + Cuts(hay, m, j + |m|)
  {
    FindFromSkips(hay, m, i, j);
  }

  /** No ';' from `i` on: no cut. */
  lemma LastCut(hay: string, m: string, i: nat)
    requires m != [] && m[0] == ';' && i <= |hay|
    requires forall k :: i <= k < |hay| ==> hay[k] != ';'
    ensures Cuts(hay, m, i) == []
  {
    FindFromSkips(hay, m, i, |hay|);
  }
}
