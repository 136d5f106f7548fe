/** The social handlers of routes/index.js: the notification helper, follow
    and the three ways of dropping a follow, the like toggle and adding a
    comment. The users and posts they edit are held by one object whose
    methods change them step by step as the handlers do. */
module SocialRoutes {
  import opened Common
  import opened Text
  import opened NotificationModel
  import opened SocialLists

  // ---------------------------------------------------------------- createNotification

  /** The message table: `messages[type] || 'New notification'`. */
  function NoticeMessage(kind: string): (m: string)
    ensures m != ""
    ensures kind !in {"follow", "like", "comment", "new_message"} ==> m == "New notification"
  {
    if kind == "follow" then "started following you"
    else if kind == "like" then "liked your post"
    else if kind == "comment" then "commented on your post"
    else if kind == "new_message" then "sent you a message"
    else "New notification"
  }

  /** The `data` argument of `createNotification`. */
  datatype NoticeInput = NoticeInput(
    postId: Option<Id>,
    chatId: Option<Id>,
    postImage: Option<string>,
    commentText: Option<string>,
    chatPreview: Option<string>)

  const NoInput := NoticeInput(None, None, None, None, None)

  /** `createNotification(recipientId, senderId, type, data)`: nothing when
      the recipient is the sender; otherwise one unread notification with
      the table's message is saved. A `type` outside the schema's enum fails
      validation, and the helper swallows the error, so nothing is saved. */
  function CreateNotification(notes: seq<Notification>, recipient: Id, sender: Id, kind: string,
                              input: NoticeInput, now: Time): (r: seq<Notification>)
    ensures recipient == sender || kind !in TypeNames ==> r == notes
    ensures recipient != sender && kind in TypeNames ==>
              && |r| == |notes| + 1 && r[..|notes|] == notes
              && var n := r[|notes|];
              && n.recipient == recipient && n.sender == Some(sender)
              && TypeName(n.kind) == kind && n.message == NoticeMessage(kind)
              && n.relatedPost == input.postId && n.relatedChat == input.chatId
              && n.data.postImage == input.postImage && n.data.commentText == input.commentText
              && n.data.chatPreview == input.chatPreview
              && n.data.amount.None? && n.data.reason.None? && n.data.paymentMethod.None?
              && n.relatedTransaction.None? && n.relatedListing.None?
              && !n.read && ValidNotification(n)
  {
    if recipient == sender then notes
    else
      match ParseType(kind)
      case None => notes
      case Some(t) =>
        var data := NotificationData(None, None, None, input.postImage, input.commentText, input.chatPreview);
        assert (notes + [NewNotification(recipient, Some(sender), t, NoticeMessage(kind), None, None,
                                         input.postId, input.chatId, data, now)])[..|notes|] == notes;
        notes + [NewNotification(recipient, Some(sender), t, NoticeMessage(kind), None, None,
                                 input.postId, input.chatId, data, now)]
  }

  // ---------------------------------------------------------------- documents

  /** The parts of a `User` document the handlers touch. */
  datatype Profile = Profile(username: string, followers: seq<Id>, following: seq<Id>)

  datatype PostComment = PostComment(user: Id, text: string, createdAt: Time)

  /** The parts of a `Post` document the handlers touch. */
  datatype Post = Post(author: Id, images: seq<string>, likes: seq<Id>, comments: seq<PostComment>)

  datatype LikeResult = LikeResult(isLiked: bool, likesCount: nat)

  datatype CommentResult = CommentResult(comment: PostComment, commentsCount: nat)

  /** `images[0]`, undefined for a post without images. */
  function FirstImage(images: seq<string>): Option<string> {
    if images == [] then None else Some(images[0])
  }

  // ---------------------------------------------------------------- follow lists

  /** The two pushes of a follow: `follower` joins `followed`'s followers and
      `followed` joins `follower`'s following. */
  function Linked(profiles: map<Id, Profile>, follower: Id, followed: Id): map<Id, Profile>
    requires follower in profiles && followed in profiles
  {
    var p1 := profiles[followed := profiles[followed].(followers := profiles[followed].followers + [follower])];
    p1[follower := p1[follower].(following := profiles[follower].following + [followed])]
  }

  /** A follow appends once to each of the two lists and touches no other
      user. */
  lemma LinkedEffects(profiles: map<Id, Profile>, follower: Id, followed: Id)
    requires follower in profiles && followed in profiles
    ensures var r := Linked(profiles, follower, followed);
            && r.Keys == profiles.Keys
            && r[followed].followers == profiles[followed].followers + [follower]
            && r[follower].following == profiles[follower].following + [followed]
            && (follower != followed ==> r[follower].followers == profiles[follower].followers
                                         && r[followed].following == profiles[followed].following)
            && forall u :: u in profiles && u != follower && u != followed ==> r[u] == profiles[u]
  {
  }

  /** The two filters of unfollow, remove-follower and unfollow-user:
      occurrences of `follower` leave `followed`'s followers and occurrences
      of `followed` leave `follower`'s following. */
  function Unlinked(profiles: map<Id, Profile>, follower: Id, followed: Id): map<Id, Profile>
    requires follower in profiles && followed in profiles
  {
    var p1 := profiles[followed := profiles[followed].(followers := RemoveAll(profiles[followed].followers, follower))];
    p1[follower := p1[follower].(following := RemoveAll(profiles[follower].following, followed))]
  }

  /** Every occurrence goes, from both lists, and no other user is touched. */
  lemma UnlinkedEffects(profiles: map<Id, Profile>, follower: Id, followed: Id)
    requires follower in profiles && followed in profiles
    ensures var r := Unlinked(profiles, follower, followed);
            && r.Keys == profiles.Keys
            && follower !in r[followed].followers && followed !in r[follower].following
            && r[followed].followers == RemoveAll(profiles[followed].followers, follower)
            && r[follower].following == RemoveAll(profiles[follower].following, followed)
            && forall u :: u in profiles && u != follower && u != followed ==> r[u] == profiles[u]
  {
  }

  /** Unfollowing right after a follow restores both users' lists. */
  lemma UnlinkUndoesLink(profiles: map<Id, Profile>, a: Id, b: Id)
    requires a in profiles && b in profiles && a != b
    requires a !in profiles[b].followers && b !in profiles[a].following
    ensures Unlinked(Linked(profiles, a, b), a, b) == profiles
  {
    var pa := profiles[a];
    var pb := profiles[b];
    var pa' := pa.(following := pa.following + [b]);
    var pb' := pb.(followers := pb.followers + [a]);
    var l := profiles[b := pb'][a := pa'];
    assert Linked(profiles, a, b) == l;
    RemoveAllUndoesAppend(pb.followers, a);
    RemoveAllUndoesAppend(pa.following, b);
    assert pb'.(followers := RemoveAll(pb'.followers, a)) == pb;
    assert pa'.(following := RemoveAll(pa'.following, b)) == pa;
    assert Unlinked(l, a, b) == l[b := pb][a := pa];
    UpdatesUndone(profiles, a, b, pa', pb');
  }

  /** Writing two entries and then writing their old values back. */
  lemma UpdatesUndone(m: map<Id, Profile>, a: Id, b: Id, x: Profile, y: Profile)
    requires a in m && b in m
    ensures m[b := y][a := x][b := m[b]][a := m[a]] == m
  {
  }

  /** A follow that passes the 409 check keeps the target's followers free
      of duplicates. */
  lemma LinkKeepsFollowersDistinct(profiles: map<Id, Profile>, a: Id, b: Id)
    requires a in profiles && b in profiles && a != b
    requires Distinct(profiles[b].followers) && a !in profiles[b].followers
    ensures Distinct(Linked(profiles, a, b)[b].followers)
    ensures multiset(Linked(profiles, a, b)[b].followers)[a] == 1
  {
    var s := profiles[b].followers;
    assert multiset(s + [a]) == multiset(s) + multiset{a};
  }

  // ---------------------------------------------------------------- the store

  class SocialStore {
    /** The unique `username` index: `User.findOne({ username })`. */
    var names: map<string, Id>
    var profiles: map<Id, Profile>
    var posts: map<Id, Post>
    /** The notifications saved by `createNotification`, oldest first. */
    var notifications: seq<Notification>

    /** Every username in the index names a stored user. */
    ghost predicate Valid()
      reads this
    {
      forall name :: name in names ==> names[name] in profiles
    }

    /** `User.findOne({ username: name })` */
    function FindUser(name: string): (r: Option<Id>)
      reads this
      ensures r.Some? ==> r.value in profiles
      ensures Valid() ==> (r.Some? <==> name in names)
    {
      if name in names && names[name] in profiles then Some(names[name]) else None
    }

    constructor ()
      ensures Valid()
      ensures names == map[] && profiles == map[] && posts == map[] && notifications == []
    {
      names := map[];
      profiles := map[];
      posts := map[];
      notifications := [];
    }

    /** `POST /u/:username/follow`: 400 for oneself (by username), 404 for an
        unknown user, 409 when already among the target's followers;
        otherwise both lists grow by one and the target is notified. */
    method Follow(caller: Caller, name: string, now: Time) returns (r: Response<()>)
      requires caller.id in profiles
      requires Valid()
      modifies this
      ensures Valid()
      ensures r == Fail(BadRequest) <==> caller.username == name
      ensures r == Fail(NotFound) <==> caller.username != name && old(FindUser(name)).None?
      ensures r == Fail(Conflict) <==>
                caller.username != name && old(FindUser(name)).Some?
                && caller.id in old(profiles)[old(FindUser(name)).value].followers
      ensures r.Fail? ==> unchanged(this)
      ensures r.Ok? ==>
                var t := old(FindUser(name)).value;
                && caller.id !in old(profiles)[t].followers
                && profiles == Linked(old(profiles), caller.id, t)
                && notifications == CreateNotification(old(notifications), t, caller.id, "follow", NoInput, now)
                && names == old(names) && posts == old(posts)
    {
      if caller.username == name {
        return Fail(BadRequest);
      }
      var target := FindUser(name);
      if target.None? {
        return Fail(NotFound);
      }
      var t := target.value;
      if caller.id in profiles[t].followers {
        return Fail(Conflict);
      }
      var me := profiles[caller.id];
      profiles := profiles[t := profiles[t].(followers := profiles[t].followers + [caller.id])];
      profiles := profiles[caller.id := profiles[caller.id].(following := me.following + [t])];
      notifications := CreateNotification(notifications, t, caller.id, "follow", NoInput, now);
      return Ok(());
    }

    /** `POST /u/:username/unfollow`: 400 for oneself, 404 for an unknown
        user; otherwise the caller leaves the target's followers and the
        target leaves the caller's following, whether or not they were there. */
    method Unfollow(caller: Caller, name: string) returns (r: Response<()>)
      requires caller.id in profiles
      requires Valid()
      modifies this
      ensures Valid()
      ensures r == Fail(BadRequest) <==> caller.username == name
      ensures r == Fail(NotFound) <==> caller.username != name && old(FindUser(name)).None?
      ensures r.Fail? ==> unchanged(this)
      ensures r.Ok? ==>
                && profiles == Unlinked(old(profiles), caller.id, old(FindUser(name)).value)
                && names == old(names) && posts == old(posts) && notifications == old(notifications)
    {
      if caller.username == name {
        return Fail(BadRequest);
      }
      var target := FindUser(name);
      if target.None? {
        return Fail(NotFound);
      }
      profiles := Unlinked(profiles, caller.id, target.value);
      return Ok(());
    }

    /** `POST /profile/remove-follower`: 400 without a username, 404 for an
        unknown user; otherwise that user leaves the caller's followers and
        the caller leaves that user's following. There is no check against
        the caller's own name. */
    method RemoveFollower(caller: Caller, name: string) returns (r: Response<()>)
      requires caller.id in profiles
      requires Valid()
      modifies this
      ensures Valid()
      ensures r == Fail(BadRequest) <==> name == ""
      ensures r == Fail(NotFound) <==> name != "" && old(FindUser(name)).None?
      ensures r.Fail? ==> unchanged(this)
      ensures r.Ok? ==>
                && profiles == Unlinked(old(profiles), old(FindUser(name)).value, caller.id)
                && names == old(names) && posts == old(posts) && notifications == old(notifications)
    {
      if name == "" {
        return Fail(BadRequest);
      }
      var follower := FindUser(name);
      if follower.None? {
        return Fail(NotFound);
      }
      profiles := Unlinked(profiles, follower.value, caller.id);
      return Ok(());
    }

    /** `POST /profile/unfollow-user`: as unfollow, but the user is named in
        the body and an empty name is the 400. */
    method UnfollowUser(caller: Caller, name: string) returns (r: Response<()>)
      requires caller.id in profiles
      requires Valid()
      modifies this
      ensures Valid()
      ensures r == Fail(BadRequest) <==> name == ""
      ensures r == Fail(NotFound) <==> name != "" && old(FindUser(name)).None?
      ensures r.Fail? ==> unchanged(this)
      ensures r.Ok? ==>
                && profiles == Unlinked(old(profiles), caller.id, old(FindUser(name)).value)
                && names == old(names) && posts == old(posts) && notifications == old(notifications)
    {
      if name == "" {
        return Fail(BadRequest);
      }
      var target := FindUser(name);
      if target.None? {
        return Fail(NotFound);
      }
      profiles := Unlinked(profiles, caller.id, target.value);
      return Ok(());
    }

    /** `POST /api/posts/:postId/like`: 404 for a missing post. An existing
        like is withdrawn (one occurrence spliced out); otherwise the caller
        is appended and the author notified, which dereferences the
        populated author and so answers 500, writing nothing, when the author
        is gone. The answer carries the new state and the list's length. */
    method ToggleLike(caller: Caller, postId: Id, now: Time) returns (r: Response<LikeResult>)
      requires Valid()
      modifies this
      ensures Valid()
      ensures postId !in old(posts) ==> r == Fail(NotFound) && unchanged(this)
      ensures postId in old(posts) ==>
                var p := old(posts)[postId];
                var liking := caller.id !in p.likes;
                if liking && p.author !in old(profiles) then r == Fail(ServerError) && unchanged(this)
                else
                  && r == Ok(LikeResult(liking, |Toggle(p.likes, caller.id)|))
                  && posts == old(posts)[postId := p.(likes := Toggle(p.likes, caller.id))]
                  && notifications == (if liking then CreateNotification(old(notifications), p.author, caller.id, "like",
                                         NoticeInput(Some(postId), None, FirstImage(p.images), None, None), now)
                                       else old(notifications))
                  && names == old(names) && profiles == old(profiles)
    {
      if postId !in posts {
        return Fail(NotFound);
      }
      var post := posts[postId];
      var index := IndexOf(post.likes, caller.id);
      var isLiked: bool;
      if index > -1 {
        post := post.(likes := post.likes[..index] + post.likes[index + 1..]);
        isLiked := false;
      } else {
        post := post.(likes := post.likes + [caller.id]);
        isLiked := true;
        if post.author !in profiles {
          return Fail(ServerError);             // populated author is null
        }
        notifications := CreateNotification(notifications, post.author, caller.id, "like",
                                            NoticeInput(Some(postId), None, FirstImage(post.images), None, None), now);
      }
      posts := posts[postId := post];
      return Ok(LikeResult(isLiked, |post.likes|));
    }

    /** `POST /api/posts/:postId/comment`: 400 for a missing or blank text,
        404 for a missing post; otherwise the trimmed text is appended as a
        comment and saved, and the author is notified with its first 50
        characters (a missing author throws there: 500, the comment kept). */
    method AddComment(caller: Caller, postId: Id, text: Option<string>, now: Time) returns (r: Response<CommentResult>)
      requires Valid()
      modifies this
      ensures Valid()
      ensures r == Fail(BadRequest) <==> text.None? || Trim(text.value) == ""
      ensures r == Fail(NotFound) <==> !(text.None? || Trim(text.value) == "") && postId !in old(posts)
      ensures r.Fail? && r.error != ServerError ==> unchanged(this)
      ensures !(text.None? || Trim(text.value) == "") && postId in old(posts) ==>
                var p := old(posts)[postId];
                var c := PostComment(caller.id, Trim(text.value), now);
                && posts == old(posts)[postId := p.(comments := p.comments + [c])]
                && names == old(names) && profiles == old(profiles)
                && (r.Ok? <==> p.author in old(profiles))
                && (r.Ok? ==> && r.value == CommentResult(c, |p.comments| + 1)
                              && notifications == CreateNotification(old(notifications), p.author, caller.id, "comment",
                                   NoticeInput(Some(postId), None, FirstImage(p.images), Some(Prefix(Trim(text.value), 50)), None), now))
                && (r.Fail? ==> notifications == old(notifications))
    {
      if text.None? || Trim(text.value) == "" {
        return Fail(BadRequest);
      }
      if postId !in posts {
        return Fail(NotFound);
      }
      var post := posts[postId];
      var comment := PostComment(caller.id, Trim(text.value), now);
      post := post.(comments := post.comments + [comment]);
      posts := posts[postId := post];
      if post.author !in profiles {
        return Fail(ServerError);               // populated author is null
      }
      notifications := CreateNotification(notifications, post.author, caller.id, "comment",
                                          NoticeInput(Some(postId), None, FirstImage(post.images),
                                                      Some(Prefix(Trim(text.value), 50)), None), now);
      return Ok(CommentResult(comment, |post.comments|));
    }
  }
}
