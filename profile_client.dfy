/** The profile page (public/js/profile.js): the image sliders of the
    collection and post modals, and the follow button with the follower
    and following counters it keeps in step. Request outcomes and dialog
    answers are parameters; the timestamps use `TimeAgo.GetTimeAgo`. */
module ProfileClient {
  import opened Common
  import opened Text
  import TimeAgo

  // ---------------------------------------------------------------- sliders

  /** An index a slider can hold for an item with `n` images: the first
      position, or the position of an image there is. */
  predicate InRange(index: int, n: nat) {
    0 <= index && (index == 0 || index < n)
  }

  /** The left arrow: back one image unless at the first. */
  function LeftIndex(index: int): int {
    if index > 0 then index - 1 else index
  }

  /** The right arrow: on one image when an item is open and the index is
      below its last image. */
  function RightIndex(index: int, images: Option<nat>): int {
    if images.Some? && index < images.value - 1 then index + 1 else index
  }

  /** Both arrows keep the index in range. */
  lemma ArrowsKeepRange(index: int, n: nat)
    requires InRange(index, n)
    ensures InRange(LeftIndex(index), n) && InRange(RightIndex(index, Some(n)), n)
    ensures LeftIndex(index) <= index <= RightIndex(index, Some(n))
  {
  }

  /** Left undoes right wherever right moved. */
  lemma LeftUndoesRight(index: int, n: nat)
    requires 0 <= index < n - 1
    ensures LeftIndex(RightIndex(index, Some(n))) == index
  {
  }

  /** `k` presses of the right arrow. */
  function RightPresses(k: nat, index: int, images: Option<nat>): int {
    if k == 0 then index else RightIndex(RightPresses(k - 1, index, images), images)
  }

  /** From the first image, `k` presses of the right arrow reach image `k`,
      and stop at the last image. */
  lemma {:induction false} RightPressesStopAtLast(k: nat, n: nat)
    ensures RightPresses(k, 0, Some(n)) == (if k < n then k else if n == 0 then 0 else n - 1)
  {
    if k > 0 {
      RightPressesStopAtLast(k - 1, n);
    }
  }

  /** The post modal shows its arrows only for more than one image. */
  function PostArrowsShown(n: nat): bool {
    n > 1
  }

  /** Hidden arrows would not have moved the index anyway. */
  lemma HiddenArrowsInert(index: int, n: nat)
    requires InRange(index, n) && !PostArrowsShown(n)
    ensures LeftIndex(index) == index && RightIndex(index, Some(n)) == index
  {
  }

  /** The counter under a slider, `(index + 1) + '/' + count`. */
  function Counter(index: nat, n: nat): string {
    NatToString(index + 1) + "/" + NatToString(n)
  }

  /** The counter reads back, with `parseInt`, as the one-based position. */
  lemma CounterReadsPosition(index: nat, n: nat)
    ensures ParseInt(Counter(index, n)) == Some(index + 1)
  {
    assert Counter(index, n) == NatToString(index + 1) + ("/" + NatToString(n));
    TimeAgo.ParseIntStopsAtSuffix(index + 1, "/" + NatToString(n));
  }

  /** The image index of one modal together with the image count of the
      item it shows (None until an item is opened). */
  class Slider {
    var images: Option<nat>
    var index: int

    predicate Valid()
      reads this
    {
      if images.Some? then InRange(index, images.value) else index == 0
    }

    constructor ()
      ensures Valid() && images == None && index == 0
    {
      images := None;
      index := 0;
    }

    /** Opening a collection or a post shows its first image. */
    method Open(n: nat)
      modifies this
      ensures Valid() && images == Some(n) && index == 0
    {
      images := Some(n);
      index := 0;
    }

    /** `openCollectionModal(idx)` over the page's collections, given by
        their image counts: nothing happens for an index with no
        collection. */
    method OpenCollection(collections: seq<nat>, idx: int)
      requires Valid()
      modifies this
      ensures Valid()
      ensures 0 <= idx < |collections| ==> images == Some(collections[idx]) && index == 0
      ensures !(0 <= idx < |collections|) ==> images == old(images) && index == old(index)
    {
      if 0 <= idx < |collections| {
        Open(collections[idx]);
      }
    }

    /** `openPostModal`: the post's image count when it loaded. */
    method OpenPost(loaded: Option<nat>)
      requires Valid()
      modifies this
      ensures Valid()
      ensures loaded.Some? ==> images == loaded && index == 0
      ensures loaded.None? ==> images == old(images) && index == old(index)
    {
      if loaded.Some? {
        Open(loaded.value);
      }
    }

    method Left()
      requires Valid()
      modifies this
      ensures Valid() && images == old(images) && index == LeftIndex(old(index))
    {
      if index > 0 {
        index := index - 1;
      }
    }

    method Right()
      requires Valid()
      modifies this
      ensures Valid() && images == old(images) && index == RightIndex(old(index), old(images))
    {
      if images.Some? && index < images.value - 1 {
        index := index + 1;
      }
    }

    /** A click on the indicator dot of image `i`. */
    method Dot(i: nat)
      requires Valid() && images.Some? && i < images.value
      modifies this
      ensures Valid() && images == old(images) && index == i
    {
      index := i;
    }
  }

  // ---------------------------------------------------------------- follow

  /** `parseInt(text) || 0`: the number a counter shows, 0 when it shows
      none. */
  function CountOf(text: string): int {
    match ParseInt(text)
    case Some(n) => n
    case None => 0
  }

  /** The counter after a follow. */
  function CountUp(text: string): string {
    IntToString(CountOf(text) + 1)
  }

  /** `Math.max` */
  function Max(a: int, b: int): int {
    if a < b then b else a
  }

  /** The counter after an unfollow or a removal: one less, never below 0. */
  function CountDown(text: string): string {
    IntToString(Max(0, CountOf(text) - 1))
  }

  /** Written counters read back as the number written. */
  lemma CountOfIntToString(n: int)
    ensures CountOf(IntToString(n)) == n
  {
    ParseIntOfIntToString(n);
  }

  /** What the follow button sends. */
  datatype Action = FollowAction | UnfollowAction

  /** The action is a follow exactly when the button reads "Follow". */
  function ActionOf(button: string): Action {
    if Trim(button) == "Follow" then FollowAction else UnfollowAction
  }

  /** The button text after a successful request. */
  function ButtonAfter(a: Action): string {
    if a.FollowAction? then "Unfollow" else "Follow"
  }

  /** What a request came back with. */
  datatype Outcome = Done | Refused(message: Option<string>) | NetworkError

  /** `data.message || fallback` */
  function MessageOr(message: Option<string>, fallback: string): (r: string)
    ensures r != "" || fallback == ""
  {
    if message.Some? && message.value != "" then message.value else fallback
  }

  /** A request of the page: the path and the user it names. */
  datatype Request = Request(path: string, username: string)

  /** The page's fields: the follow button's text, the two counters'
      texts, the follower and following lists, the requests sent and the
      toasts shown. */
  datatype ProfileState = ProfileState(
    button: string,
    followersText: string,
    followingText: string,
    followers: seq<string>,
    following: seq<string>,
    requests: seq<Request>,
    toasts: seq<string>)

  /** The counters show numbers that are not negative. */
  predicate CountsNatural(p: ProfileState) {
    CountOf(p.followersText) >= 0 && CountOf(p.followingText) >= 0
  }

  /** The follow form's submit for the profile of `username` (empty when the
      address has none, and then nothing happens). On success the button
      flips and the follower counter follows the action. */
  function FollowSubmitted(p: ProfileState, username: string, outcome: Outcome): ProfileState {
    if username == "" then p
    else
      var a := ActionOf(p.button);
      var q := p.(requests := p.requests
                    + [Request("/u/" + username + "/" + (if a.FollowAction? then "follow" else "unfollow"), username)]);
      match outcome
      case Done =>
        q.(button := ButtonAfter(a),
           followersText := if a.FollowAction? then CountUp(p.followersText) else CountDown(p.followersText),
           toasts := p.toasts + [if a.FollowAction? then "Successfully followed!" else "Successfully unfollowed!"])
      case Refused(m) => q.(toasts := p.toasts + [MessageOr(m, "An error occurred")])
      case NetworkError => q.(toasts := p.toasts + ["Network/server error"])
  }

  /** A removal from one of the two lists: nothing without a name or a
      confirmation; on success the entry goes and the counter drops. */
  function Removed(list: seq<string>, k: nat): (r: seq<string>)
    requires k < |list|
    ensures |r| == |list| - 1
    ensures forall j :: 0 <= j < |r| ==> r[j] == (if j < k then list[j] else list[j + 1])
  {
    list[..k] + list[k + 1..]
  }

  /** The remove button of follower `k`. */
  function FollowerRemoved(p: ProfileState, k: nat, confirmed: bool, outcome: Outcome): ProfileState
    requires k < |p.followers|
  {
    var name := p.followers[k];
    if name == "" || !confirmed then p
    else
      var q := p.(requests := p.requests + [Request("/profile/remove-follower", name)]);
      match outcome
      case Done =>
        q.(followers := Removed(p.followers, k),
           followersText := CountDown(p.followersText),
           toasts := p.toasts + [name + " removed from followers"])
      case Refused(m) => q.(toasts := p.toasts + [MessageOr(m, "Failed to remove follower")])
      case NetworkError => q.(toasts := p.toasts + ["Network error"])
  }

  /** The unfollow button of followed user `k`. */
  function UserUnfollowed(p: ProfileState, k: nat, confirmed: bool, outcome: Outcome): ProfileState
    requires k < |p.following|
  {
    var name := p.following[k];
    if name == "" || !confirmed then p
    else
      var q := p.(requests := p.requests + [Request("/profile/unfollow-user", name)]);
      match outcome
      case Done =>
        q.(following := Removed(p.following, k),
           followingText := CountDown(p.followingText),
           toasts := p.toasts + ["Unfollowed " + name])
      case Refused(m) => q.(toasts := p.toasts + [MessageOr(m, "Failed to unfollow")])
      case NetworkError => q.(toasts := p.toasts + ["Network error"])
  }

  /** Every handler keeps the counters at natural numbers. */
  lemma FollowKeepsCountsNatural(p: ProfileState, username: string, outcome: Outcome)
    requires CountsNatural(p)
    ensures CountsNatural(FollowSubmitted(p, username, outcome))
  {
    if username != "" && outcome.Done? {
      CountUpNatural(p.followersText);
      CountDownNatural(p.followersText);
    }
  }

  lemma RemoveKeepsCountsNatural(p: ProfileState, k: nat, confirmed: bool, outcome: Outcome)
    requires CountsNatural(p) && k < |p.followers|
    ensures CountsNatural(FollowerRemoved(p, k, confirmed, outcome))
  {
    CountDownNatural(p.followersText);
  }

  lemma UnfollowKeepsCountsNatural(p: ProfileState, k: nat, confirmed: bool, outcome: Outcome)
    requires CountsNatural(p) && k < |p.following|
    ensures CountsNatural(UserUnfollowed(p, k, confirmed, outcome))
  {
    CountDownNatural(p.followingText);
  }

  /** A follow adds one to a natural count. */
  lemma CountUpNatural(text: string)
    requires CountOf(text) >= 0
    ensures CountOf(CountUp(text)) == CountOf(text) + 1
  {
    CountOfIntToString(CountOf(text) + 1);
  }

  /** An unfollow or a removal never shows a negative count. */
  lemma CountDownNatural(text: string)
    ensures CountOf(CountDown(text)) == Max(0, CountOf(text) - 1)
  {
    CountOfIntToString(Max(0, CountOf(text) - 1));
  }

  /** A successful request flips the action the button sends next. */
  lemma ButtonFlips(a: Action)
    ensures ActionOf(ButtonAfter(a)) != a
  {
    var b := ButtonAfter(a);
    assert !IsSpace(b[0]) && !IsSpace(b[|b| - 1]);
    assert TrimStart(b) == b;
    assert TrimEnd(b) == b;
  }

  /** Follow then unfollow, both successful, restore the button and the
      follower count. */
  lemma FollowThenUnfollow(p: ProfileState, username: string)
    requires username != "" && Trim(p.button) == "Follow" && CountOf(p.followersText) >= 0
    ensures var q := FollowSubmitted(FollowSubmitted(p, username, Done), username, Done);
            q.button == "Follow" && CountOf(q.followersText) == CountOf(p.followersText)
            && |q.requests| == |p.requests| + 2
  {
    ButtonFlips(FollowAction);
    CountOfIntToString(CountOf(p.followersText) + 1);
    CountOfIntToString(CountOf(p.followersText));
  }

  /** A refused or failed request changes nothing but the requests and the
      toasts. */
  lemma FailuresOnlyToast(p: ProfileState, username: string, outcome: Outcome)
    requires !outcome.Done?
    ensures var q := FollowSubmitted(p, username, outcome);
            q.button == p.button && q.followersText == p.followersText
            && q.followers == p.followers && q.following == p.following
            && (username != "" ==> |q.toasts| == |p.toasts| + 1)
  {
  }

  /** The page's own elements. */
  class ProfilePage {
    var button: string
    var followersText: string
    var followingText: string
    var followers: seq<string>
    var following: seq<string>
    var requests: seq<Request>
    var toasts: seq<string>

    function State(): ProfileState
      reads this
    {
      ProfileState(button, followersText, followingText, followers, following, requests, toasts)
    }

    predicate Valid()
      reads this
    {
      CountsNatural(State())
    }

    constructor (button: string, followers: seq<string>, following: seq<string>)
      ensures Valid()
      ensures State() == ProfileState(button, NatToString(|followers|), NatToString(|following|),
                                      followers, following, [], [])
    {
      this.button := button;
      this.followers := followers;
      this.following := following;
      followersText := NatToString(|followers|);
      followingText := NatToString(|following|);
      requests := [];
      toasts := [];
      ParseIntOfNatToString(|followers|);
      ParseIntOfNatToString(|following|);
    }

    /** The follow form's submit. */
    method SubmitFollow(username: string, outcome: Outcome)
      requires Valid()
      modifies this
      ensures Valid()
      ensures State() == FollowSubmitted(old(State()), username, outcome)
    {
      FollowKeepsCountsNatural(State(), username, outcome);
      Load(FollowSubmitted(State(), username, outcome));
    }

    /** The remove button of follower `k`. */
    method RemoveFollower(k: nat, confirmed: bool, outcome: Outcome)
      requires Valid() && k < |followers|
      modifies this
      ensures Valid()
      ensures State() == FollowerRemoved(old(State()), k, confirmed, outcome)
    {
      RemoveKeepsCountsNatural(State(), k, confirmed, outcome);
      Load(FollowerRemoved(State(), k, confirmed, outcome));
    }

    /** The unfollow button of followed user `k`. */
    method UnfollowUser(k: nat, confirmed: bool, outcome: Outcome)
      requires Valid() && k < |following|
      modifies this
      ensures Valid()
      ensures State() == UserUnfollowed(old(State()), k, confirmed, outcome)
    {
      UnfollowKeepsCountsNatural(State(), k, confirmed, outcome);
      Load(UserUnfollowed(State(), k, confirmed, outcome));
    }

    /** Puts the page's elements in state `q`: the common last step of the
        three handlers above. */
    method Load(q: ProfileState)
      modifies this
      ensures State() == q
    {
      button, followersText, followingText := q.button, q.followersText, q.followingText;
      followers, following := q.followers, q.following;
      requests, toasts := q.requests, q.toasts;
    }
  }
}
