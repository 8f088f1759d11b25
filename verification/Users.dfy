/** The public user catalog: sorted, deduplicated, bounded, avatars numbered (fomalhaut-user, lib.rs). */
module Users {
  import opened Prelude
  import opened Frontend

  /** A discovered account; `icon` is the image read from its icon file, if there is an acceptable one. */
  datatype RawUser = RawUser(username: Text, displayName: Text, icon: Option<Text>, frequency: nat)

  datatype Avatar = Avatar(number: nat, body: Text)

  /** A public user, with the number of its avatar. */
  datatype Summary = Summary(username: Text, displayName: Text, avatar: Option<nat>)

  predicate Presentable(user: RawUser) {
    ValidLabel(user.username) && ValidLabel(user.displayName)
  }

  // ---------------------------------------------------------------------------
  // The order of users

  /** Byte-wise lexicographic order. */
  predicate Less(a: Text, b: Text) {
    b != [] && (a == [] || a[0] < b[0] || (a[0] == b[0] && Less(a[1..], b[1..])))
  }

  /** One user may stand before another: used more often, or as often with no later name. */
  predicate Goes(a: RawUser, b: RawUser) {
    a.frequency > b.frequency || (a.frequency == b.frequency && !Less(b.username, a.username))
  }

  predicate SameKey(a: RawUser, b: RawUser) {
    a.frequency == b.frequency && a.username == b.username
  }

  function Insert(user: RawUser, users: seq<RawUser>): seq<RawUser> {
    if users != [] && Goes(users[0], user) then [users[0]] + Insert(user, users[1..]) else [user] + users
  }

  /** The stable sort. */
  function Sort(users: seq<RawUser>): seq<RawUser> {
    if users == [] then [] else Insert(users[|users| - 1], Sort(users[..|users| - 1]))
  }

  ghost predicate Ordered(users: seq<RawUser>) {
    forall i, j :: 0 <= i < j < |users| ==> Goes(users[i], users[j])
  }

  function OfKey(users: seq<RawUser>, key: RawUser): seq<RawUser> {
    if users == [] then []
    else (if SameKey(users[0], key) then [users[0]] else []) + OfKey(users[1..], key)
  }

  lemma {:induction false} LessIsTotal(a: Text, b: Text)
    ensures !Less(a, b) || !Less(b, a)
    ensures a == b || Less(a, b) || Less(b, a)
    decreases |a|
  {
    if a != [] && b != [] {
      LessIsTotal(a[1..], b[1..]);
      assert a == [a[0]] + a[1..] && b == [b[0]] + b[1..];
    }
  }

  lemma {:induction false} LessIsTransitive(a: Text, b: Text, c: Text)
    requires Less(a, b) && Less(b, c)
    ensures Less(a, c)
    decreases |a|
  {
    if a != [] && a[0] == b[0] == c[0] {
      LessIsTransitive(a[1..], b[1..], c[1..]);
    }
  }

  lemma GoesIsTransitive(a: RawUser, b: RawUser, c: RawUser)
    requires Goes(a, b) && Goes(b, c)
    ensures Goes(a, c)
  {
    LessIsTotal(a.username, b.username);
    LessIsTotal(b.username, c.username);
    if Less(a.username, b.username) && Less(b.username, c.username) {
      LessIsTransitive(a.username, b.username, c.username);
    }
    LessIsTotal(a.username, c.username);
  }

  lemma GoesIsTotal(a: RawUser, b: RawUser)
    ensures Goes(a, b) || Goes(b, a)
    ensures SameKey(a, b) ==> Goes(a, b)
  {
    LessIsTotal(a.username, b.username);
  }

  lemma {:induction false} InsertKeepsOrder(user: RawUser, users: seq<RawUser>)
    requires Ordered(users)
    ensures Ordered(Insert(user, users))
    ensures forall u :: u in Insert(user, users) <==> u == user || u in users
    decreases |users|
  {
    if users != [] && Goes(users[0], user) {
      InsertKeepsOrder(user, users[1..]);
      assert users == [users[0]] + users[1..];
      forall u | u in Insert(user, users[1..]) ensures Goes(users[0], u) {
        if u != user {
          var i :| 0 <= i < |users| - 1 && users[1..][i] == u;
          assert users[i + 1] == u;
        }
      }
    } else if users != [] {
      GoesIsTotal(users[0], user);
      forall j | 0 <= j < |users| ensures Goes(user, users[j]) {
        if j > 0 {
          GoesIsTransitive(user, users[0], users[j]);
        }
      }
    }
  }

  lemma {:induction false} InsertIsStable(user: RawUser, users: seq<RawUser>, key: RawUser)
    requires Ordered(users)
    ensures OfKey(Insert(user, users), key) == OfKey(users, key) + if SameKey(user, key) then [user] else []
    decreases |users|
  {
    if users != [] && Goes(users[0], user) {
      var sorted := Insert(user, users);
      assert sorted[0] == users[0] && sorted[1..] == Insert(user, users[1..]);
      InsertIsStable(user, users[1..], key);
    } else {
      assert ([user] + users)[1..] == users;
      if SameKey(user, key) {
        NoneOfKey(user, users);
        OfSameKey(users, user, key);
      }
    }
  }

  lemma {:induction false} OfSameKey(users: seq<RawUser>, a: RawUser, b: RawUser)
    requires SameKey(a, b)
    ensures OfKey(users, a) == OfKey(users, b)
    decreases |users|
  {
    if users != [] {
      OfSameKey(users[1..], a, b);
    }
  }

  /** Where a user does not go behind the first of an ordered list, the list has none of its key. */
  lemma {:induction false} NoneOfKey(user: RawUser, users: seq<RawUser>)
    requires Ordered(users) && (users != [] ==> !Goes(users[0], user))
    ensures OfKey(users, user) == []
    decreases |users|
  {
    if users != [] {
      GoesIsTotal(users[0], user);
      if |users| > 1 && Goes(users[1], user) {
        GoesIsTransitive(users[0], users[1], user);
      }
      NoneOfKey(user, users[1..]);
    }
  }

  /** The sort orders the users and keeps those of equal rank in the order they were found. */
  lemma {:induction false} SortIsStable(users: seq<RawUser>, key: RawUser)
    ensures Ordered(Sort(users)) && OfKey(Sort(users), key) == OfKey(users, key)
    decreases |users|
  {
    if users != [] {
      var n := |users| - 1;
      SortIsStable(users[..n], key);
      InsertKeepsOrder(users[n], Sort(users[..n]));
      InsertIsStable(users[n], Sort(users[..n]), key);
      assert users == users[..n] + [users[n]];
      OfKeyAppend(users[..n], users[n], key);
    }
  }

  lemma {:induction false} OfKeyAppend(users: seq<RawUser>, user: RawUser, key: RawUser)
    ensures OfKey(users + [user], key) == OfKey(users, key) + if SameKey(user, key) then [user] else []
    decreases |users|
  {
    if users != [] {
      assert (users + [user])[1..] == users[1..] + [user];
      OfKeyAppend(users[1..], user, key);
    }
  }

  // ---------------------------------------------------------------------------
  // Choosing and presenting

  datatype Picked = Picked(seen: set<Text>, users: seq<RawUser>)

  /** The users presented: a name is decided by its first user, even one that cannot be presented. */
  function Choose(sorted: seq<RawUser>): Picked {
    if sorted == [] then Picked({}, [])
    else
      var before, user := Choose(sorted[..|sorted| - 1]), sorted[|sorted| - 1];
      if |before.users| >= MAX_USERS || user.username in before.seen then before
      else Picked(before.seen + {user.username}, if Presentable(user) then before.users + [user] else before.users)
  }

  /** The avatars of the presented users, numbered from 1. */
  function Avatars(users: seq<RawUser>): seq<Avatar> {
    if users == [] then []
    else
      var before, user := Avatars(users[..|users| - 1]), users[|users| - 1];
      match user.icon
      case None => before
      case Some(body) => before + [Avatar(|before| + 1, body)]
  }

  function Summaries(users: seq<RawUser>): seq<Summary> {
    if users == [] then []
    else
      var before, user := users[..|users| - 1], users[|users| - 1];
      Summaries(before)
      + [Summary(user.username, user.displayName, if user.icon.Some? then Some(|Avatars(before)| + 1) else None)]
  }

  lemma {:induction false} ChosenAreFound(sorted: seq<RawUser>)
    ensures var p := Choose(sorted);
      && |p.users| <= MAX_USERS
      && forall i :: 0 <= i < |p.users| ==> p.users[i].username in p.seen && Presentable(p.users[i]) && p.users[i] in sorted
    decreases |sorted|
  {
    if sorted != [] {
      var n := |sorted| - 1;
      ChosenAreFound(sorted[..n]);
      assert forall i :: 0 <= i < n ==> sorted[..n][i] == sorted[i];
    }
  }

  /** While there is room, the names seen are exactly those of the users so far. */
  lemma {:induction false} SeenAreNames(sorted: seq<RawUser>)
    requires |Choose(sorted).users| < MAX_USERS
    ensures forall name :: name in Choose(sorted).seen <==> exists i :: 0 <= i < |sorted| && sorted[i].username == name
    decreases |sorted|
  {
    if sorted != [] {
      var n := |sorted| - 1;
      SeenAreNames(sorted[..n]);
      assert forall i :: 0 <= i < n ==> sorted[..n][i] == sorted[i];
    }
  }

  /** The next user is presented exactly if there is room, its name is new, and it can be presented. */
  lemma ChooseStep(sorted: seq<RawUser>, user: RawUser)
    ensures var before := Choose(sorted).users;
      Choose(sorted + [user]).users ==
      before + if |before| < MAX_USERS && Presentable(user)
                  && (forall i :: 0 <= i < |sorted| ==> sorted[i].username != user.username)
               then [user] else []
  {
    if |Choose(sorted).users| < MAX_USERS {
      SeenAreNames(sorted);
    }
    assert (sorted + [user])[..|sorted|] == sorted;
  }

  /** A rejected user takes its name along: here nobody of that name is presented, though the second could be. */
  lemma RejectedTakesName()
    ensures var rejected, presentable := RawUser([97], [], None, 2), RawUser([97], [97], None, 1);
      && !Presentable(rejected) && Presentable(presentable)
      && Choose([presentable]).users == [presentable]
      && Choose([rejected, presentable]).users == []
  {
    var rejected, presentable := RawUser([97], [], None, 2), RawUser([97], [97], None, 1);
    assert [] + [rejected] == [rejected] && [] + [presentable] == [presentable];
    assert [rejected] + [presentable] == [rejected, presentable];
    assert Presentable(presentable);
    ChooseStep([], rejected);
    ChooseStep([], presentable);
    ChooseStep([rejected], presentable);
    assert [rejected][0].username == presentable.username;
  }

  /** Presented users have distinct names and keep the order of the list. */
  lemma {:induction false} ChosenAreDistinct(sorted: seq<RawUser>)
    requires Ordered(sorted)
    ensures var users := Choose(sorted).users;
      && Ordered(users)
      && forall i, j :: 0 <= i < j < |users| ==> users[i].username != users[j].username
    decreases |sorted|
  {
    if sorted != [] {
      var n := |sorted| - 1;
      ChosenAreDistinct(sorted[..n]);
      ChosenAreFound(sorted[..n]);
      forall u | u in sorted[..n] ensures Goes(u, sorted[n]) {
        var i :| 0 <= i < n && sorted[..n][i] == u;
        assert sorted[i] == u;
      }
    }
  }

  /** A summary carries its user's names and, if the user has an icon, the number of that very avatar. */
  predicate Presents(summary: Summary, user: RawUser, avatars: seq<Avatar>) {
    && summary.username == user.username && summary.displayName == user.displayName
    && match (summary.avatar, user.icon)
       case (None, None) => true
       case (Some(number), Some(body)) => 1 <= number <= |avatars| && avatars[number - 1] == Avatar(number, body)
       case _ => false
  }

  /** Each summary names exactly its own avatar, and avatars are numbered 1, 2, 3, ... without gaps. */
  lemma {:induction false} AvatarsAreNumbered(users: seq<RawUser>, i: nat)
    requires i < |users|
    ensures |Summaries(users)| == |users|
    ensures forall k :: 0 <= k < |Avatars(users)| ==> Avatars(users)[k].number == k + 1
    ensures Presents(Summaries(users)[i], users[i], Avatars(users))
    ensures forall j :: i < j < |users| && users[i].icon.Some? && Summaries(users)[j].avatar.Some? ==>
              Summaries(users)[i].avatar.value < Summaries(users)[j].avatar.value
    decreases |users|
  {
    var n := |users| - 1;
    AvatarCounts(users[..n]);
    if i < n {
      AvatarsAreNumbered(users[..n], i);
      assert users[..n][i] == users[i];
    }
  }

  lemma {:induction false} AvatarCounts(users: seq<RawUser>)
    ensures |Summaries(users)| == |users|
    ensures forall k :: 0 <= k < |Avatars(users)| ==> Avatars(users)[k].number == k + 1
    decreases |users|
  {
    if users != [] {
      AvatarCounts(users[..|users| - 1]);
    }
  }

  /**
   * The public catalog has at most 128 users with distinct names, most used first and then by name;
   * every summary names its own avatar whatever was left out before it.
   */
  lemma PublicUsersAreSound(raw: seq<RawUser>)
    ensures var users := Choose(Sort(raw)).users;
      && |Summaries(users)| == |users| <= MAX_USERS
      && (forall i :: 0 <= i < |users| ==> Presents(Summaries(users)[i], users[i], Avatars(users)))
      && (forall i, j :: 0 <= i < j < |users| ==> users[i].username != users[j].username && Goes(users[i], users[j]))
  {
    var users := Choose(Sort(raw)).users;
    ChosenAreFound(Sort(raw));
    AvatarCounts(users);
    forall i | 0 <= i < |users| ensures Presents(Summaries(users)[i], users[i], Avatars(users)) {
      AvatarsAreNumbered(users, i);
    }
    SortIsStable(raw, RawUser([], [], None, 0));
    ChosenAreDistinct(Sort(raw));
  }

  // ---------------------------------------------------------------------------
  // The loop

  lemma ChosenNext(sorted: seq<RawUser>, i: nat)
    requires i < |sorted|
    ensures var before, user := Choose(sorted[..i]), sorted[i];
      Choose(sorted[..i + 1]) ==
      if |before.users| >= MAX_USERS || user.username in before.seen then before
      else Picked(before.seen + {user.username}, if Presentable(user) then before.users + [user] else before.users)
  {
    assert sorted[..i + 1][..i] == sorted[..i];
  }

  lemma PresentedNext(users: seq<RawUser>, user: RawUser)
    ensures var avatars := Avatars(users);
      && Avatars(users + [user]) ==
         (if user.icon.Some? then avatars + [Avatar(|avatars| + 1, user.icon.value)] else avatars)
      && Summaries(users + [user]) ==
         Summaries(users)
         + [Summary(user.username, user.displayName, if user.icon.Some? then Some(|avatars| + 1) else None)]
  {
    assert (users + [user])[..|users|] == users;
  }

  method BuildPublicUsers(raw: seq<RawUser>) returns (summaries: seq<Summary>, avatars: seq<Avatar>)
    ensures var users := Choose(Sort(raw)).users; summaries == Summaries(users) && avatars == Avatars(users)
  {
    var sorted := Sort(raw);
    var seen: set<Text> := {};
    summaries, avatars := [], [];
    ghost var users: seq<RawUser> := [];
    for i := 0 to |sorted|
      invariant Choose(sorted[..i]) == Picked(seen, users)
      invariant |summaries| == |users|
      invariant summaries == Summaries(users) && avatars == Avatars(users)
    {
      var user := sorted[i];
      ChosenNext(sorted, i);
      if |summaries| >= MAX_USERS || user.username in seen {
        continue;
      }
      seen := seen + {user.username};
      var avatar := match user.icon case None => None case Some(body) => Some(Avatar(|avatars| + 1, body));
      if !Presentable(user) {
        continue;
      }
      PresentedNext(users, user);
      summaries := summaries + [Summary(user.username, user.displayName,
                                        if avatar.None? then None else Some(avatar.value.number))];
      avatars := if avatar.None? then avatars else avatars + [avatar.value];
      users := users + [user];
    }
    assert sorted[..|sorted|] == sorted;
  }
}
