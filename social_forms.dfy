/** The pure helpers of routes/index.js that shape request input: the
    user-search pattern escape, and the zip of the previous-owner form
    fields of `POST /collections/add`. */
module SocialForms {
  import opened Common

  // ---------------------------------------------------------------- escapeRegex

  /** The characters `escapeRegex` escapes: `. * + ? ^ $ { } ( ) | [ ] \`. */
  predicate RegexSpecial(c: char) {
    c in {'.', '*', '+', '?', '^', '$', '{', '}', '(', ')', '|', '[', ']', '\\'}
  }

  /** `s.replace(/[.*+?^${}()|[\]\\]/g, '\\$&')`: a backslash before each
      special character, every other character as it is. */
  function EscapeRegex(s: string): (r: string)
    ensures |r| >= |s|
    ensures (forall k :: 0 <= k < |s| ==> !RegexSpecial(s[k])) ==> r == s
  {
    if s == [] then []
    else if RegexSpecial(s[0]) then ['\\', s[0]] + EscapeRegex(s[1..])
    else [s[0]] + EscapeRegex(s[1..])
  }

  /** The text a pattern matches literally, when it is made of plain
      characters and backslash-escaped special characters only; None for a
      pattern with a bare special character or any other escape. */
  function Literal(p: string): Option<string>
    decreases |p|
  {
    if p == [] then Some([])
    else if p[0] == '\\' then
      if |p| >= 2 && RegexSpecial(p[1]) then
        match Literal(p[2..])
        case Some(t) => Some([p[1]] + t)
        case None => None
      else None
    else if RegexSpecial(p[0]) then None
    else
      match Literal(p[1..])
      case Some(t) => Some([p[0]] + t)
      case None => None
  }

  /** The escaped query is a pattern that matches exactly the query's own
      text: no character of it acts as a regular-expression operator. */
  lemma {:induction false} EscapeRegexIsLiteral(s: string)
    ensures Literal(EscapeRegex(s)) == Some(s)
  {
    if s != [] {
      var rest := EscapeRegex(s[1..]);
      EscapeRegexIsLiteral(s[1..]);
      if RegexSpecial(s[0]) {
        assert (['\\', s[0]] + rest)[2..] == rest;
      } else {
        assert ([s[0]] + rest)[1..] == rest;
      }
      assert s == [s[0]] + s[1..];
    }
  }

  /** Different queries give different patterns. */
  lemma EscapeRegexInjective(s: string, t: string)
    requires EscapeRegex(s) == EscapeRegex(t)
    ensures s == t
  {
    EscapeRegexIsLiteral(s);
    EscapeRegexIsLiteral(t);
  }

  // ---------------------------------------------------------------- previous owners

  /** A form field as the body parser delivers it: absent, one value, or an
      array when the field is repeated. */
  datatype FormValue = Absent | Scalar(text: string) | Many(items: seq<string>)

  /** `toArray = v => Array.isArray(v) ? v : v ? [v] : []` */
  function ToArray(v: FormValue): (r: seq<string>)
    ensures v.Many? ==> r == v.items
    ensures !v.Many? ==> |r| <= 1 && (r != [] <==> v.Scalar? && v.text != "") && (r != [] ==> r[0] == v.text)
  {
    match v
    case Absent => []
    case Scalar(text) => if text != "" then [text] else []
    case Many(items) => items
  }

  /** A previous-owner entry as the form builds it. */
  datatype OwnerEntry = OwnerEntry(user: string, from: Option<string>, to: Option<string>)

  /** `xs[idx] || null`: the value at `idx` unless it is missing or empty. */
  function ValueAt(xs: seq<string>, idx: nat): Option<string> {
    if idx < |xs| && xs[idx] != "" then Some(xs[idx]) else None
  }

  /** `pOwnerIds.map((username, idx) => ({ user, from: pFrom[idx] || null, to: pTo[idx] || null }))`:
      one entry per owner, in order, with the dates found at the same
      position. */
  function PreviousOwners(ids: FormValue, from: FormValue, to: FormValue): (r: seq<OwnerEntry>)
    ensures |r| == |ToArray(ids)|
    ensures forall k :: 0 <= k < |r| ==> r[k].user == ToArray(ids)[k]
    ensures forall k :: 0 <= k < |r| ==> r[k].from == ValueAt(ToArray(from), k) && r[k].to == ValueAt(ToArray(to), k)
  {
    var owners := ToArray(ids);
    var froms := ToArray(from);
    var tos := ToArray(to);
    seq(|owners|, k requires 0 <= k < |owners| => OwnerEntry(owners[k], ValueAt(froms, k), ValueAt(tos, k)))
  }

  /** One owner typed in a single form row gives exactly one entry with its
      dates; a missing date gives null; no owner gives no entry, whatever
      dates were sent. */
  lemma SingleOwnerRow(user: string, from: string, to: FormValue)
    requires user != "" && from != ""
    ensures PreviousOwners(Scalar(user), Scalar(from), to)
              == [OwnerEntry(user, Some(from), ValueAt(ToArray(to), 0))]
    ensures PreviousOwners(Scalar(user), Absent, Absent) == [OwnerEntry(user, None, None)]
    ensures PreviousOwners(Absent, Scalar(from), to) == []
  {
  }
}
