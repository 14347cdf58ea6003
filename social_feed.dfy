/** The social app (Assignment1/SocialMediaApp/App.js): the provider's
    users, posts, messages and notifications with its eight operations, the
    post screen's tag parsing and the chat screen's conversation filter. */
module SocialFeed {
  import opened Collections
  import opened Text

  datatype MediaKind = Image | Video

  /** `[media.type]: media.url`: a post carries a picture or a video. */
  datatype Media = Media(kind: MediaKind, url: string)

  /** A post; its id `String(n)` is kept as the number `n`, and `user` (the
      author's name) is called `author` here. */
  datatype Post = Post(id: nat, author: string, content: string, media: Media, likes: int,
                       comments: seq<string>, tags: seq<string>)

  /** A user (the avatar is presentation and is not modelled). `posts` is a
      copy taken when a post is made, not a view of the feed. */
  datatype User = User(id: nat, username: string, password: string, bio: string, posts: seq<Post>,
                       following: int, followers: int)

  datatype Message = Message(id: nat, from: string, to: string, text: string, timestamp: string)

  datatype Notification = Notification(id: nat, text: string, timestamp: string)

  const InitialPosts: seq<Post> := [
    Post(1, "Alice", "Exploring the mountains! #nature",
         Media(Image, "https://images.unsplash.com/photo-1506748686214-e9df14d4d9d0?q=80&w=300"), 12, ["Wow!", "Amazing view"], ["nature"]),
    Post(2, "Bob", "New tech review video! #tech",
         Media(Video, "https://images.unsplash.com/photo-1518770660439-4636190af475?q=80&w=300"), 8, ["Great content"], ["tech"]),
    Post(3, "Alice", "Sunset vibes #sunset",
         Media(Image, "https://images.unsplash.com/photo-1507525428034-b723cf961d3e?q=80&w=300"), 15, ["Beautiful"], ["sunset"]),
    Post(4, "Charlie", "Post-workout selfie #fitness",
         Media(Image, "https://images.unsplash.com/photo-1517838277536-f5f99be501cd?q=80&w=300"), 5, [], ["fitness"]),
    Post(5, "Bob", "Coding marathon #coding",
         Media(Image, "https://images.unsplash.com/photo-1517694712202-14dd9538aa97?q=80&w=300"), 10, ["Keep it up!"], ["coding"])
  ]

  const InitialUsers: seq<User> := [
    User(1, "Alice", "pass123", "Nature lover \U{1F33F}", [InitialPosts[0], InitialPosts[2]], 20, 25),
    User(2, "Bob", "pass456", "Tech geek \U{1F468}\U{200D}\U{1F4BB}", [InitialPosts[1], InitialPosts[4]], 15, 18),
    User(3, "Charlie", "pass789", "Fitness enthusiast \U{1F4AA}", [InitialPosts[3]], 10, 12)
  ]

  /** The picture `handlePost` uses when no media URL was typed. */
  const DefaultMediaUrl: string := "https://images.unsplash.com/photo-1504328345606-18bbc8c9d7d1?q=80&w=300"

  // ---------------------------------------------------------------------
  // Invariants of the provider's lists

  predicate UniqueUsernames(users: seq<User>)
  {
    forall i, j :: 0 <= i < j < |users| ==> users[i].username != users[j].username
  }

  /** Users are numbered 1, 2, ... in the order they joined. */
  predicate UserIdsSequential(users: seq<User>)
  {
    forall i :: 0 <= i < |users| ==> users[i].id == i + 1
  }

  /** Post ids are distinct and lie in 1..|posts|. */
  predicate PostIdsValid(posts: seq<Post>)
  {
    && (forall i :: 0 <= i < |posts| ==> 1 <= posts[i].id <= |posts|)
    && (forall i, j :: 0 <= i < j < |posts| ==> posts[i].id != posts[j].id)
  }

  /** The sample users and posts the app starts with satisfy the
      invariants. */
  lemma InitialStateValid()
    ensures UniqueUsernames(InitialUsers) && UserIdsSequential(InitialUsers)
    ensures PostIdsValid(InitialPosts)
  {
    InitialUsersValid();
    InitialPostsValid();
  }

  lemma InitialUsersValid()
    ensures UniqueUsernames(InitialUsers) && UserIdsSequential(InitialUsers)
  {
    var names := seq(|InitialUsers|, i requires 0 <= i < |InitialUsers| => InitialUsers[i].username);
    assert names == ["Alice", "Bob", "Charlie"];
  }

  lemma InitialPostsValid()
    ensures PostIdsValid(InitialPosts)
  {
    assert forall i :: 0 <= i < |InitialPosts| ==> InitialPosts[i].id == i + 1;
  }

  /** Messages are numbered 1, 2, ... in the order they were sent. */
  predicate MessageIdsSequential(messages: seq<Message>)
  {
    forall i :: 0 <= i < |messages| ==> messages[i].id == i + 1
  }

  /** Notifications are numbered from the newest down to 1. */
  predicate NotificationIdsSequential(notifications: seq<Notification>)
  {
    forall i :: 0 <= i < |notifications| ==> notifications[i].id == |notifications| - i
  }

  // ---------------------------------------------------------------------
  // Notifications

  /** A new notification goes first, numbered one past the current count. */
  function Notify(notifications: seq<Notification>, text: string, timestamp: string): seq<Notification>
  {
    [Notification(|notifications| + 1, text, timestamp)] + notifications
  }

  lemma NotifyKeepsSequential(notifications: seq<Notification>, text: string, timestamp: string)
    requires NotificationIdsSequential(notifications)
    ensures NotificationIdsSequential(Notify(notifications, text, timestamp))
  {
    var n := Notify(notifications, text, timestamp);
    forall i | 0 <= i < |n| ensures n[i].id == |n| - i {
      if i > 0 {
        assert n[i] == notifications[i - 1];
      }
    }
  }

  // ---------------------------------------------------------------------
  // login and signup

  /** `users.find(u => u.username === username && u.password === password)`. */
  function FindUser(users: seq<User>, username: string, password: string): (r: Option<User>)
    ensures r.None? <==> forall i :: 0 <= i < |users| ==> !(users[i].username == username && users[i].password == password)
    ensures r.Some? ==> exists i ::
      0 <= i < |users| && users[i] == r.value
      && (forall j :: 0 <= j < i ==> !(users[j].username == username && users[j].password == password))
    ensures r.Some? ==> r.value.username == username && r.value.password == password
  {
    if users == [] then None
    else if users[0].username == username && users[0].password == password then
      assert users[0] == users[0];
      Some(users[0])
    else
      var r := FindUser(users[1..], username, password);
      if r.Some? then
        var i :| 0 <= i < |users[1..]| && users[1..][i] == r.value
          && (forall j :: 0 <= j < i ==> !(users[1..][j].username == username && users[1..][j].password == password));
        assert users[i + 1] == r.value;
        r
      else
        r
  }

  /** Some user already has this name (`users.find(u => u.username ===
      username)` succeeds). */
  predicate UsernameTaken(users: seq<User>, username: string)
  {
    exists i :: 0 <= i < |users| && users[i].username == username
  }

  /** The user `signup` creates. */
  function NewUser(users: seq<User>, username: string, password: string): User
  {
    User(|users| + 1, username, password, "", [], 0, 0)
  }

  /** A name that is not taken keeps names unique and numbering sequential
      once added. */
  lemma SignupKeepsInvariants(users: seq<User>, username: string, password: string)
    requires UniqueUsernames(users) && UserIdsSequential(users) && !UsernameTaken(users, username)
    ensures UniqueUsernames(users + [NewUser(users, username, password)])
    ensures UserIdsSequential(users + [NewUser(users, username, password)])
  {
  }

  // ---------------------------------------------------------------------
  // Posts

  /** The post `createPost` makes. */
  function NewPost(posts: seq<Post>, author: string, content: string, media: Media, tags: seq<string>): Post
  {
    Post(|posts| + 1, author, content, media, 0, [], tags)
  }

  /** `{ ...u, posts: [newPost, ...u.posts] }` for the author only. */
  function WithPost(users: seq<User>, authorId: nat, post: Post): (r: seq<User>)
    ensures |r| == |users|
    ensures forall i :: 0 <= i < |users| ==>
      r[i] == if users[i].id == authorId then users[i].(posts := [post] + users[i].posts) else users[i]
  {
    MapSeq(users, (u: User) => if u.id == authorId then u.(posts := [post] + u.posts) else u)
  }

  /** With users numbered from 1, the new post lands at position
      `authorId - 1` and nowhere else. */
  lemma WithPostAt(users: seq<User>, authorId: nat, post: Post)
    requires UserIdsSequential(users) && 1 <= authorId <= |users|
    ensures WithPost(users, authorId, post)
      == users[authorId - 1 := users[authorId - 1].(posts := [post] + users[authorId - 1].posts)]
  {
    var r := WithPost(users, authorId, post);
    var e := users[authorId - 1 := users[authorId - 1].(posts := [post] + users[authorId - 1].posts)];
    assert forall i :: 0 <= i < |users| ==> r[i] == e[i];
  }

  /** The notification text of `createPost`. */
  function PostedText(username: string, content: string): string
  {
    username + " posted: " + Prefix(content, 20) + "..."
  }

  /** A new post numbered one past the count keeps post ids valid. */
  lemma NewPostKeepsIds(posts: seq<Post>, post: Post)
    requires PostIdsValid(posts) && post.id == |posts| + 1
    ensures PostIdsValid([post] + posts)
  {
    var p := [post] + posts;
    forall i, j | 0 <= i < j < |p| ensures p[i].id != p[j].id {
      assert p[j] == posts[j - 1];
      if i > 0 {
        assert p[i] == posts[i - 1];
      }
    }
  }

  /** The first post with this id. */
  function FindPost(posts: seq<Post>, postId: nat): (r: Option<Post>)
    ensures r.None? <==> forall i :: 0 <= i < |posts| ==> posts[i].id != postId
    ensures r.Some? ==> r.value.id == postId && r.value in posts
    ensures r.Some? ==>
      exists i :: 0 <= i < |posts| && posts[i] == r.value && forall j :: 0 <= j < i ==> posts[j].id != postId
  {
    if posts == [] then None
    else if posts[0].id == postId then Some(posts[0])
    else FindPost(posts[1..], postId)
  }

  /** In a list of distinct ids the post found is the one at its index. */
  lemma FindPostAt(posts: seq<Post>, k: nat)
    requires PostIdsValid(posts) && k < |posts|
    ensures FindPost(posts, posts[k].id) == Some(posts[k])
  {
    var r := FindPost(posts, posts[k].id);
    var j :| 0 <= j < |posts| && posts[j] == r.value;
    assert posts[j].id == posts[k].id;
  }

  function LikeStep(p: Post, postId: nat): Post
  {
    if p.id == postId then p.(likes := p.likes + 1) else p
  }

  /** `posts.map(p => p.id === postId ? { ...p, likes: p.likes + 1 } : p)`. */
  function Liked(posts: seq<Post>, postId: nat): (r: seq<Post>)
    ensures |r| == |posts| && forall i :: 0 <= i < |posts| ==> r[i] == LikeStep(posts[i], postId)
  {
    MapSeq(posts, (p: Post) => LikeStep(p, postId))
  }

  function CommentStep(p: Post, postId: nat, line: string): Post
  {
    if p.id == postId then p.(comments := p.comments + [line]) else p
  }

  /** `posts.map(p => p.id === postId ? { ...p, comments: [...p.comments,
      line] } : p)`. */
  function Commented(posts: seq<Post>, postId: nat, line: string): (r: seq<Post>)
    ensures |r| == |posts| && forall i :: 0 <= i < |posts| ==> r[i] == CommentStep(posts[i], postId, line)
  {
    MapSeq(posts, (p: Post) => CommentStep(p, postId, line))
  }

  function LikesOf(p: Post): real { p.likes as real }
  function CommentCount(p: Post): real { |p.comments| as real }

  /** A like goes to exactly the post with the id: one more like there, every
      other post as it was, and one more like in all. */
  lemma LikedSpec(posts: seq<Post>, k: nat)
    requires PostIdsValid(posts) && k < |posts|
    ensures Liked(posts, posts[k].id) == posts[k := posts[k].(likes := posts[k].likes + 1)]
    ensures SumOf(Liked(posts, posts[k].id), LikesOf) == SumOf(posts, LikesOf) + 1.0
    ensures PostIdsValid(Liked(posts, posts[k].id))
  {
    var liked := posts[k].(likes := posts[k].likes + 1);
    LikedAt(posts, k);
    SumOfReplace(posts, k, liked, LikesOf, 1.0);
    SameIdsValid(posts, posts[k := liked]);
  }

  lemma LikedAt(posts: seq<Post>, k: nat)
    requires PostIdsValid(posts) && k < |posts|
    ensures Liked(posts, posts[k].id) == posts[k := posts[k].(likes := posts[k].likes + 1)]
  {
    var liked := posts[k].(likes := posts[k].likes + 1);
    var r := Liked(posts, posts[k].id);
    forall i | 0 <= i < |posts| ensures r[i] == posts[k := liked][i] {
      DistinctAt(posts, i, k);
    }
  }

  /** A comment goes to exactly the post with the id, at the end of its
      comments; every other post is as it was. */
  lemma CommentedSpec(posts: seq<Post>, k: nat, line: string)
    requires PostIdsValid(posts) && k < |posts|
    ensures Commented(posts, posts[k].id, line) == posts[k := posts[k].(comments := posts[k].comments + [line])]
    ensures SumOf(Commented(posts, posts[k].id, line), CommentCount) == SumOf(posts, CommentCount) + 1.0
    ensures PostIdsValid(Commented(posts, posts[k].id, line))
  {
    var commented := posts[k].(comments := posts[k].comments + [line]);
    CommentedAt(posts, k, line);
    SumOfReplace(posts, k, commented, CommentCount, 1.0);
    SameIdsValid(posts, posts[k := commented]);
  }

  lemma CommentedAt(posts: seq<Post>, k: nat, line: string)
    requires PostIdsValid(posts) && k < |posts|
    ensures Commented(posts, posts[k].id, line) == posts[k := posts[k].(comments := posts[k].comments + [line])]
  {
    var commented := posts[k].(comments := posts[k].comments + [line]);
    var r := Commented(posts, posts[k].id, line);
    forall i | 0 <= i < |posts| ensures r[i] == posts[k := commented][i] {
      DistinctAt(posts, i, k);
    }
  }

  /** Liking a post that exists keeps the post ids valid. */
  lemma LikedKeepsIds(posts: seq<Post>, postId: nat)
    requires PostIdsValid(posts) && FindPost(posts, postId).Some?
    ensures PostIdsValid(Liked(posts, postId))
  {
    var k :| 0 <= k < |posts| && posts[k] == FindPost(posts, postId).value;
    LikedSpec(posts, k);
  }

  /** Commenting on a post that exists keeps the post ids valid. */
  lemma CommentedKeepsIds(posts: seq<Post>, postId: nat, line: string)
    requires PostIdsValid(posts) && FindPost(posts, postId).Some?
    ensures PostIdsValid(Commented(posts, postId, line))
  {
    var k :| 0 <= k < |posts| && posts[k] == FindPost(posts, postId).value;
    CommentedSpec(posts, k, line);
  }

  /** Two places of a valid list hold the same id only if they are one. */
  lemma DistinctAt(posts: seq<Post>, i: nat, k: nat)
    requires PostIdsValid(posts) && i < |posts| && k < |posts|
    ensures posts[i].id == posts[k].id ==> i == k
  {
    if i < k {
      assert posts[i].id != posts[k].id;
    } else if k < i {
      assert posts[k].id != posts[i].id;
    }
  }

  /** Validity depends on the ids alone. */
  lemma SameIdsValid(posts: seq<Post>, other: seq<Post>)
    requires PostIdsValid(posts) && |other| == |posts|
    requires forall i :: 0 <= i < |posts| ==> other[i].id == posts[i].id
    ensures PostIdsValid(other)
  {
  }

  // ---------------------------------------------------------------------
  // Following

  function FollowStep(u: User, targetId: nat, meId: nat): User
  {
    if u.id == targetId then u.(followers := u.followers + 1)
    else if u.id == meId then u.(following := u.following + 1)
    else u
  }

  function UnfollowStep(u: User, targetId: nat, meId: nat): User
  {
    if u.id == targetId then u.(followers := u.followers - 1)
    else if u.id == meId then u.(following := u.following - 1)
    else u
  }

  /** `followUser(targetId)`'s new user list. */
  function Followed(users: seq<User>, targetId: nat, meId: nat): (r: seq<User>)
    ensures |r| == |users| && forall i :: 0 <= i < |users| ==> r[i] == FollowStep(users[i], targetId, meId)
  {
    MapSeq(users, (u: User) => FollowStep(u, targetId, meId))
  }

  /** `unfollowUser(targetId)`'s new user list. */
  function Unfollowed(users: seq<User>, targetId: nat, meId: nat): (r: seq<User>)
    ensures |r| == |users| && forall i :: 0 <= i < |users| ==> r[i] == UnfollowStep(users[i], targetId, meId)
  {
    MapSeq(users, (u: User) => UnfollowStep(u, targetId, meId))
  }

  /** Following adds one to the target's followers and, unless it is the
      same user, one to the follower's following; nothing else moves. On
      oneself only the followers count moves. */
  lemma FollowedSpec(users: seq<User>, targetId: nat, meId: nat)
    ensures forall i :: 0 <= i < |users| ==>
      var u, v := users[i], Followed(users, targetId, meId)[i];
      && v.id == u.id && v.username == u.username && v.password == u.password && v.posts == u.posts
      && v.followers == u.followers + (if u.id == targetId then 1 else 0)
      && v.following == u.following + (if u.id == meId && u.id != targetId then 1 else 0)
  {
  }

  /** Unfollowing takes one from the target's followers and, unless it is
      the same user, one from the follower's following; nothing else moves. */
  lemma UnfollowedSpec(users: seq<User>, targetId: nat, meId: nat)
    ensures forall i :: 0 <= i < |users| ==>
      var u, v := users[i], Unfollowed(users, targetId, meId)[i];
      && v.id == u.id && v.username == u.username && v.password == u.password && v.posts == u.posts
      && v.followers == u.followers - (if u.id == targetId then 1 else 0)
      && v.following == u.following - (if u.id == meId && u.id != targetId then 1 else 0)
  {
  }

  /** Unfollowing right after following gives the same users back. */
  lemma UnfollowUndoesFollow(users: seq<User>, targetId: nat, meId: nat)
    ensures Unfollowed(Followed(users, targetId, meId), targetId, meId) == users
  {
    var r := Unfollowed(Followed(users, targetId, meId), targetId, meId);
    assert forall i :: 0 <= i < |users| ==> r[i] == users[i];
  }

  /** Following changes counters only, so ids and names stay in place. */
  lemma FollowedKeepsInvariants(users: seq<User>, targetId: nat, meId: nat)
    requires UniqueUsernames(users) && UserIdsSequential(users)
    ensures UniqueUsernames(Followed(users, targetId, meId)) && UserIdsSequential(Followed(users, targetId, meId))
  {
  }

  /** So does unfollowing. */
  lemma UnfollowedKeepsInvariants(users: seq<User>, targetId: nat, meId: nat)
    requires UniqueUsernames(users) && UserIdsSequential(users)
    ensures UniqueUsernames(Unfollowed(users, targetId, meId)) && UserIdsSequential(Unfollowed(users, targetId, meId))
  {
  }

  /** Adding a post to its author's list leaves ids and names in place. */
  lemma WithPostKeepsInvariants(users: seq<User>, meId: nat, post: Post)
    requires UniqueUsernames(users) && UserIdsSequential(users)
    ensures UniqueUsernames(WithPost(users, meId, post)) && UserIdsSequential(WithPost(users, meId, post))
  {
  }

  /** The profile button's `isFollowing`: whether the signed-in user follows
      anybody at all, whatever profile is shown. */
  predicate IsFollowing(users: seq<User>, meId: nat)
  {
    exists i :: 0 <= i < |users| && users[i].id == meId && users[i].following > 0
  }

  /** The button on another user's profile: "Unfollow" while `isFollowing`,
      "Follow" otherwise. */
  function ProfileToggle(users: seq<User>, meId: nat, targetId: nat): seq<User>
  {
    if IsFollowing(users, meId) then Unfollowed(users, targetId, meId) else Followed(users, targetId, meId)
  }

  /** With users numbered in order, `isFollowing` reads the signed-in user's
      own counter; so the button on every profile is "Unfollow" once that
      counter is positive, and pressing it takes a follower from a user who
      was never followed: Alice starts at 20 followings, and on Charlie's
      profile the button brings Charlie's followers from 12 to 11. */
  lemma IsFollowingSpec(users: seq<User>, meId: nat, targetId: nat)
    requires UserIdsSequential(users) && 1 <= meId <= |users| && meId != targetId
    ensures IsFollowing(users, meId) <==> users[meId - 1].following > 0
    ensures IsFollowing(users, meId) ==> ProfileToggle(users, meId, targetId) == Unfollowed(users, targetId, meId)
    ensures ProfileToggle(InitialUsers, 1, 3)[2].followers == 11
  {
    assert InitialUsers[0].id == 1 && InitialUsers[0].following > 0;
  }

  /** After following someone else, from a counter that was not negative,
      the button reads "Unfollow" on every profile. */
  lemma FollowMakesFollowing(users: seq<User>, meId: nat, targetId: nat)
    requires UserIdsSequential(users) && 1 <= meId <= |users| && meId != targetId
    requires users[meId - 1].following >= 0
    ensures IsFollowing(Followed(users, targetId, meId), meId)
  {
    assert Followed(users, targetId, meId)[meId - 1].following > 0;
  }

  // ---------------------------------------------------------------------
  // Tags and chat

  function Token(tag: string): string
  {
    Trim(RemoveFirst(tag, '#'))
  }

  predicate NonEmpty(tag: string) { tag != [] }

  /** `tags.split(' ').map(tag => tag.replace('#', '').trim()).filter(tag
      => tag)`. */
  function ParseTags(tags: string): seq<string>
  {
    Filter(MapSeq(Split(tags, ' '), Token), NonEmpty)
  }

  /** A tag as `handlePost` stores it: not empty, no space inside, and
      neither starting nor ending with whitespace. */
  predicate WellFormedTag(t: string)
  {
    t != [] && ' ' !in t && !IsWhitespace(t[0]) && !IsWhitespace(t[|t| - 1])
  }

  /** Every parsed tag is well formed. */
  lemma ParseTagsWellFormed(tags: string)
    ensures forall i :: 0 <= i < |ParseTags(tags)| ==> WellFormedTag(ParseTags(tags)[i])
  {
    var words := Split(tags, ' ');
    var tokens := MapSeq(words, Token);
    forall j | 0 <= j < |tokens| && NonEmpty(tokens[j]) ensures WellFormedTag(tokens[j]) {
      TokenShape(words[j]);
    }
    FilterKeepsProperty(tokens, NonEmpty, WellFormedTag);
    assert ParseTags(tags) == Filter(tokens, NonEmpty);
  }

  /** Each word that leaves something once its first `#` is dropped and it
      is trimmed yields a tag. */
  lemma ParseTagsKeepsWords(tags: string)
    ensures forall i :: 0 <= i < |Split(tags, ' ')| && Token(Split(tags, ' ')[i]) != [] ==>
      Token(Split(tags, ' ')[i]) in ParseTags(tags)
  {
    var tokens := MapSeq(Split(tags, ' '), Token);
    assert ParseTags(tags) == Filter(tokens, NonEmpty);
    FilterElements(tokens, NonEmpty);
  }

  /** A word without spaces gives a token that, when not empty, is well
      formed. */
  lemma TokenShape(word: string)
    requires ' ' !in word
    ensures Token(word) != [] ==> WellFormedTag(Token(word))
  {
    RemoveFirstKeepsAbsent(word, '#', ' ');
    TrimKeepsAbsent(RemoveFirst(word, '#'), ' ');
    TrimShape(RemoveFirst(word, '#'));
  }

  /** Removing a character brings in no new one. */
  lemma RemoveFirstKeepsAbsent(s: string, c: char, x: char)
    requires x !in s
    ensures x !in RemoveFirst(s, c)
  {
    var w := RemoveFirst(s, c);
    if c in s {
      var k :| 0 <= k < |s| && s[k] == c && c !in s[..k] && w == s[..k] + s[k + 1..];
      forall m | 0 <= m < |w| ensures w[m] != x {
        if m < k {
          assert w[m] == s[m];
        } else {
          assert w[m] == s[m + 1];
        }
      }
    }
  }

  /** Trimming brings in no new character. */
  lemma TrimKeepsAbsent(s: string, x: char)
    requires x !in s
    ensures x !in Trim(s)
  {
    var t := TrimStart(s);
    SliceKeepsAbsent(s, |s| - |t|, |s|, x);
    SliceKeepsAbsent(t, 0, |TrimEnd(t)|, x);
  }

  lemma SliceKeepsAbsent(s: string, lo: nat, hi: nat, x: char)
    requires x !in s && lo <= hi <= |s|
    ensures x !in s[lo..hi]
  {
    forall m | 0 <= m < hi - lo ensures s[lo..hi][m] != x {
      assert s[lo..hi][m] == s[lo + m];
    }
  }

  /** The chat with `other`: the messages from me to them and from them to
      me. */
  predicate InChat(m: Message, me: string, other: string)
  {
    (m.from == me && m.to == other) || (m.from == other && m.to == me)
  }

  function ChatView(messages: seq<Message>, me: string, other: string): seq<Message>
  {
    Filter(messages, (m: Message) => InChat(m, me, other))
  }

  /** The chat shows exactly the pair's messages, in sending order; both
      sides see the same conversation; and a message sent to the other side
      appears at its end while one to a third user does not appear. */
  lemma ChatViewSpec(messages: seq<Message>, me: string, other: string, m: Message)
    ensures forall i :: 0 <= i < |ChatView(messages, me, other)| ==>
      ChatView(messages, me, other)[i] in messages && InChat(ChatView(messages, me, other)[i], me, other)
    ensures forall i :: 0 <= i < |messages| && InChat(messages[i], me, other) ==>
      messages[i] in ChatView(messages, me, other)
    ensures ChatView(messages, me, other) == ChatView(messages, other, me)
    ensures ChatView(messages + [m], me, other)
      == ChatView(messages, me, other) + (if InChat(m, me, other) then [m] else [])
  {
    var p := (x: Message) => InChat(x, me, other);
    FilterElements(messages, p);
    FilterPointwise(messages, p, (x: Message) => InChat(x, other, me));
    FilterAppend(messages, [m], p);
    assert [m][1..] == [];
  }

  // ---------------------------------------------------------------------
  // The provider

  /** `handlePost`'s check and arguments: nothing without content or media
      URL; otherwise the content, the media (the default picture when no
      URL was typed) and the parsed tags. */
  function PostRequest(content: string, mediaUrl: string, kind: MediaKind, tags: string): (r: Option<(string, Media, seq<string>)>)
    ensures r.None? <==> content == [] && mediaUrl == []
    ensures r.Some? ==> r.value.0 == content && r.value.2 == ParseTags(tags)
    ensures r.Some? ==> r.value.1 == Media(kind, if mediaUrl == [] then DefaultMediaUrl else mediaUrl)
  {
    if content != [] || mediaUrl != [] then
      Some((content, Media(kind, if mediaUrl != [] then mediaUrl else DefaultMediaUrl), ParseTags(tags)))
    else None
  }

  class SocialState {
    var user: Option<User>
    var posts: seq<Post>
    var users: seq<User>
    var messages: seq<Message>
    var notifications: seq<Notification>

    ghost predicate Valid()
      reads this
    {
      && UniqueUsernames(users) && UserIdsSequential(users)
      && PostIdsValid(posts)
      && MessageIdsSequential(messages)
      && NotificationIdsSequential(notifications)
      && (user.Some? ==> 1 <= user.value.id <= |users|)
    }

    constructor ()
      ensures user == None && posts == InitialPosts && users == InitialUsers
      ensures messages == [] && notifications == []
      ensures Valid()
    {
      user := None;
      posts := InitialPosts;
      users := InitialUsers;
      messages := [];
      notifications := [];
      InitialStateValid();
    }

    /** `login(username, password)`. */
    method Login(username: string, password: string) returns (ok: bool)
      modifies this
      ensures ok <==> exists i :: 0 <= i < |users| && users[i].username == username && users[i].password == password
      ensures user == if ok then FindUser(users, username, password) else old(user)
      ensures posts == old(posts) && users == old(users) && messages == old(messages)
      ensures notifications == old(notifications)
      ensures old(Valid()) ==> Valid()
    {
      var found := FindUser(users, username, password);
      if found.Some? {
        user := found;
        ghost var i :| 0 <= i < |users| && users[i] == found.value;
      }
      ok := found.Some?;
    }

    /** `signup(username, password)`. */
    method Signup(username: string, password: string) returns (ok: bool)
      modifies this
      ensures ok <==> !UsernameTaken(old(users), username)
      ensures ok ==> users == old(users) + [NewUser(old(users), username, password)]
      ensures ok ==> user == Some(NewUser(old(users), username, password))
      ensures !ok ==> users == old(users) && user == old(user)
      ensures posts == old(posts) && messages == old(messages) && notifications == old(notifications)
      ensures old(Valid()) ==> Valid()
    {
      if UsernameTaken(users, username) {
        return false;
      }
      if Valid() {
        SignupKeepsInvariants(users, username, password);
      }
      var newUser := NewUser(users, username, password);
      users := users + [newUser];
      user := Some(newUser);
      ok := true;
    }

    /** `createPost(content, media, tags)`, for a signed-in user, with the
      timestamp given. */
    method CreatePost(content: string, media: Media, tags: seq<string>, timestamp: string)
      requires user.Some?
      modifies this
      ensures var p := NewPost(old(posts), old(user).value.username, content, media, tags);
        && posts == [p] + old(posts)
        && users == WithPost(old(users), old(user).value.id, p)
      ensures notifications == Notify(old(notifications), PostedText(old(user).value.username, content), timestamp)
      ensures user == old(user) && messages == old(messages)
      ensures old(Valid()) ==> Valid()
    {
      var me := user.value;
      var p := NewPost(posts, me.username, content, media, tags);
      if Valid() {
        NewPostKeepsIds(posts, p);
        WithPostKeepsInvariants(users, me.id, p);
        NotifyKeepsSequential(notifications, PostedText(me.username, content), timestamp);
      }
      posts := [p] + posts;
      users := WithPost(users, me.id, p);
      notifications := Notify(notifications, PostedText(me.username, content), timestamp);
    }

    /** `likePost(postId)` on a post of the feed, by a signed-in user. */
    method LikePost(postId: nat, timestamp: string)
      requires user.Some? && FindPost(posts, postId).Some?
      modifies this
      ensures posts == Liked(old(posts), postId)
      ensures var author := FindPost(old(posts), postId).value.author; var me := old(user).value.username;
        notifications == if author != me then Notify(old(notifications), me + " liked " + author + "'s post", timestamp)
                         else old(notifications)
      ensures user == old(user) && users == old(users) && messages == old(messages)
      ensures old(Valid()) ==> Valid()
    {
      var post := FindPost(posts, postId).value;
      var me := user.value.username;
      var text := me + " liked " + post.author + "'s post";
      if Valid() {
        LikedKeepsIds(posts, postId);
        NotifyKeepsSequential(notifications, text, timestamp);
      }
      posts := Liked(posts, postId);
      if post.author != me {
        notifications := Notify(notifications, text, timestamp);
      }
    }

    /** `commentPost(postId, comment)` on a post of the feed, by a signed-in
      user: the comment is stored as "name: comment". */
    method CommentPost(postId: nat, comment: string, timestamp: string)
      requires user.Some? && FindPost(posts, postId).Some?
      modifies this
      ensures posts == Commented(old(posts), postId, old(user).value.username + ": " + comment)
      ensures var author := FindPost(old(posts), postId).value.author; var me := old(user).value.username;
        notifications == if author != me then Notify(old(notifications), me + " commented on " + author + "'s post", timestamp)
                         else old(notifications)
      ensures user == old(user) && users == old(users) && messages == old(messages)
      ensures old(Valid()) ==> Valid()
    {
      var post := FindPost(posts, postId).value;
      var me := user.value.username;
      var text := me + " commented on " + post.author + "'s post";
      if Valid() {
        CommentedKeepsIds(posts, postId, me + ": " + comment);
        NotifyKeepsSequential(notifications, text, timestamp);
      }
      posts := Commented(posts, postId, me + ": " + comment);
      if post.author != me {
        notifications := Notify(notifications, text, timestamp);
      }
    }

    /** `sendMessage(to, text)` by a signed-in user. */
    method SendMessage(to: string, text: string, timestamp: string)
      requires user.Some?
      modifies this
      ensures messages == old(messages) + [Message(|old(messages)| + 1, old(user).value.username, to, text, timestamp)]
      ensures notifications == Notify(old(notifications), old(user).value.username + " sent a message to " + to, timestamp)
      ensures user == old(user) && users == old(users) && posts == old(posts)
      ensures old(Valid()) ==> Valid()
    {
      var me := user.value.username;
      if Valid() {
        NotifyKeepsSequential(notifications, me + " sent a message to " + to, timestamp);
      }
      messages := messages + [Message(|messages| + 1, me, to, text, timestamp)];
      notifications := Notify(notifications, me + " sent a message to " + to, timestamp);
    }

    /** `followUser(userId)` by a signed-in user, of a user that exists. */
    method FollowUser(userId: nat, timestamp: string)
      requires user.Some? && exists i :: 0 <= i < |users| && users[i].id == userId
      modifies this
      ensures users == Followed(old(users), userId, old(user).value.id)
      ensures exists i ::
        0 <= i < |old(users)| && old(users)[i].id == userId
        && (forall j :: 0 <= j < i ==> old(users)[j].id != userId)
        && notifications == Notify(old(notifications),
             old(user).value.username + " followed " + old(users)[i].username, timestamp)
      ensures user == old(user) && posts == old(posts) && messages == old(messages)
      ensures old(Valid()) ==> Valid()
    {
      var i := 0;
      while users[i].id != userId
        invariant 0 <= i < |users|
        invariant exists k :: i <= k < |users| && users[k].id == userId
        invariant forall j :: 0 <= j < i ==> users[j].id != userId
        decreases |users| - i
      {
        i := i + 1;
      }
      var followed := users[i];
      var me := user.value;
      if Valid() {
        FollowedKeepsInvariants(users, userId, me.id);
        NotifyKeepsSequential(notifications, me.username + " followed " + followed.username, timestamp);
      }
      users := Followed(users, userId, me.id);
      notifications := Notify(notifications, me.username + " followed " + followed.username, timestamp);
    }

    /** `unfollowUser(userId)` by a signed-in user. */
    method UnfollowUser(userId: nat)
      requires user.Some?
      modifies this
      ensures users == Unfollowed(old(users), userId, old(user).value.id)
      ensures user == old(user) && posts == old(posts) && messages == old(messages)
      ensures notifications == old(notifications)
      ensures old(Valid()) ==> Valid()
    {
      if Valid() {
        UnfollowedKeepsInvariants(users, userId, user.value.id);
      }
      users := Unfollowed(users, userId, user.value.id);
    }

    /** The post screen's "Post" button for a signed-in user: posts when
      there is content or a media URL, and says whether it did. */
    method HandlePost(content: string, mediaUrl: string, kind: MediaKind, tags: string, timestamp: string)
      returns (posted: bool)
      requires user.Some?
      modifies this
      ensures posted <==> PostRequest(content, mediaUrl, kind, tags).Some?
      ensures !posted ==> posts == old(posts) && users == old(users) && notifications == old(notifications)
      ensures posted ==> |posts| == |old(posts)| + 1 && posts[0].content == content && posts[0].tags == ParseTags(tags)
      ensures posted ==>
        var req := PostRequest(content, mediaUrl, kind, tags).value;
        var p := NewPost(old(posts), old(user).value.username, req.0, req.1, req.2);
        && posts == [p] + old(posts)
        && users == WithPost(old(users), old(user).value.id, p)
        && notifications == Notify(old(notifications), PostedText(old(user).value.username, content), timestamp)
      ensures user == old(user) && messages == old(messages)
      ensures old(Valid()) ==> Valid()
    {
      match PostRequest(content, mediaUrl, kind, tags)
      case None =>
        posted := false;
      case Some((c, media, tagList)) =>
        CreatePost(c, media, tagList, timestamp);
        posted := true;
    }
  }
}
