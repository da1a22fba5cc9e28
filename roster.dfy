/**
 * The pure parts of the roster controller: the search filter, the online count, removal by id,
 * and what applying a batch of status updates does to the roster.
 */
module Roster {
  import opened Common
  import opened UserModel

  /** ASCII case folding; locale-aware folding is not modelled. */
  function FoldChar(c: char): char {
    if 'A' <= c <= 'Z' then (c as int + 32) as char else c
  }

  function FoldCase(s: string): (r: string)
    ensures |r| == |s|
  {
    seq(|s|, i requires 0 <= i < |s| => FoldChar(s[i]))
  }

  /** `t` occurs in `s` at position `i`, up to case. */
  predicate OccursAt(s: string, t: string, i: int) {
    0 <= i <= |s| - |t| && FoldCase(s)[i..i + |t|] == FoldCase(t)
  }

  /** `s.localizedCaseInsensitiveContains(t)` for a non-empty `t`: `t` occurs in `s` up to case. */
  predicate ContainsIgnoringCase(s: string, t: string) {
    exists i :: 0 <= i <= |s| - |t| && OccursAt(s, t, i)
  }

  /** A text held verbatim by `s` occurs in it up to case; a text longer than `s` never does. */
  lemma ContainsSubstring(s: string, t: string, i: int)
    requires 0 <= i <= |s| - |t| && s[i..i + |t|] == t
    ensures ContainsIgnoringCase(s, t)
    ensures forall u :: |u| > |s| ==> !ContainsIgnoringCase(s, u)
  {
    forall k | 0 <= k < |t|
      ensures FoldCase(s)[i..i + |t|][k] == FoldCase(t)[k]
    {
      assert s[i + k] == t[k];
    }
    assert OccursAt(s, t, i);
  }

  /** Whether `t` occurs in `s` up to case does not depend on the case `t` is written in. */
  lemma ContainsIgnoresCase(s: string, t: string)
    ensures ContainsIgnoringCase(s, FoldCase(t)) == ContainsIgnoringCase(s, t)
  {
    FoldCaseIdempotent(t);
    forall i
      ensures OccursAt(s, FoldCase(t), i) == OccursAt(s, t, i)
    {
    }
  }

  /** The search rule: the text occurs, up to case, in the user's name or bio. */
  predicate MatchesSearch(u: User, text: string) {
    ContainsIgnoringCase(u.name, text) || ContainsIgnoringCase(u.bio, text)
  }

  /**
   * The search filter: an empty text gives the roster itself; otherwise the users whose name or
   * bio contains the text up to case, in roster order.
   */
  function SearchResults(users: seq<User>, text: string): (r: seq<User>)
    ensures text == [] ==> r == users
    ensures text != [] ==> forall u :: u in r <==> u in users && MatchesSearch(u, text)
    ensures |r| <= |users|
  {
    if text == [] then users else Kept(users, (u: User) => MatchesSearch(u, text))
  }

  /** Searching the results of a search again with the same text changes nothing. */
  lemma SearchIdempotent(users: seq<User>, text: string)
    ensures SearchResults(SearchResults(users, text), text) == SearchResults(users, text)
  {
    if text != [] {
      KeptIdempotent(users, (u: User) => MatchesSearch(u, text));
    }
  }

  /** The filter works entry by entry, so the order of the roster is kept. */
  lemma SearchKeepsOrder(a: seq<User>, b: seq<User>, text: string)
    ensures SearchResults(a + b, text) == SearchResults(a, text) + SearchResults(b, text)
  {
    if text != [] {
      KeptAppend(a, b, (u: User) => MatchesSearch(u, text));
    }
  }

  lemma FoldCaseIdempotent(s: string)
    ensures FoldCase(FoldCase(s)) == FoldCase(s)
  {
  }

  /** Typing the text in another case finds the same users. */
  lemma SearchIgnoresCase(users: seq<User>, text: string)
    ensures SearchResults(users, FoldCase(text)) == SearchResults(users, text)
  {
    if text != [] {
      forall u: User
        ensures MatchesSearch(u, FoldCase(text)) == MatchesSearch(u, text)
      {
        ContainsIgnoresCase(u.name, text);
        ContainsIgnoresCase(u.bio, text);
      }
      KeptCongruent(users, (u: User) => MatchesSearch(u, FoldCase(text)), (u: User) => MatchesSearch(u, text));
    }
  }

  /** `users.filter { $0.isOnline }.count`. */
  function CountOnline(users: seq<User>): (n: nat)
    ensures n <= |users|
  {
    |Kept(users, (u: User) => u.isOnline)|
  }

  /** The online count is additive over the roster. */
  lemma CountOnlineAppend(a: seq<User>, b: seq<User>)
    ensures CountOnline(a + b) == CountOnline(a) + CountOnline(b)
  {
    KeptAppend(a, b, (u: User) => u.isOnline);
  }

  /** Of the five sample users, three are online. */
  lemma SampleOnlineCount(firstId: Uuid, now: Time)
    ensures CountOnline(SampleUsers(firstId, now)) == 3
  {
    var s := SampleUsers(firstId, now);
    assert s == [s[0]] + [s[1]] + [s[2]] + [s[3]] + [s[4]];
    CountOnlineAppend([s[0]] + [s[1]] + [s[2]] + [s[3]], [s[4]]);
    CountOnlineAppend([s[0]] + [s[1]] + [s[2]], [s[3]]);
    CountOnlineAppend([s[0]] + [s[1]], [s[2]]);
    CountOnlineAppend([s[0]], [s[1]]);
  }

  /** `removeAll { $0.id == id }`: every entry with that id goes, the others stay in order. */
  function WithoutId(users: seq<User>, id: Uuid): (r: seq<User>)
    ensures !IdOccurs(r, id)
    ensures forall u :: u in r <==> u in users && u.id != id
  {
    var r := Kept(users, (u: User) => u.id != id);
    assert forall i :: 0 <= i < |r| ==> r[i] in r;
    r
  }

  /** Removal works entry by entry, so the order of the remaining users is kept. */
  lemma WithoutIdKeepsOrder(a: seq<User>, b: seq<User>, id: Uuid)
    ensures WithoutId(a + b, id) == WithoutId(a, id) + WithoutId(b, id)
  {
    KeptAppend(a, b, (u: User) => u.id != id);
  }

  /** Removing an id nobody has leaves the roster as it was. */
  lemma WithoutAbsentId(users: seq<User>, id: Uuid)
    requires !IdOccurs(users, id)
    ensures WithoutId(users, id) == users
  {
    forall u | u in users
      ensures u.id != id
    {
      var i :| 0 <= i < |users| && users[i] == u;
    }
    KeptAll(users, (u: User) => u.id != id);
  }

  /**
   * What `handleUserStatusUpdates` has done to the roster `before`, giving `after`, once the keys
   * in `done` are handled, while the UUID counter went from `lo` to `hi`: the length is kept; an
   * entry that is the first one with a handled id is rebuilt with that status as a new record,
   * each under its own id; every other entry is kept as it was; and one id was drawn per rebuilt
   * entry.
   */
  ghost predicate StatusUpdatesAppliedFor(before: seq<User>, after: seq<User>, updates: map<Uuid, bool>,
                                          done: set<Uuid>, now: Time, lo: nat, hi: nat)
  {
    && |after| == |before|
    && (forall j :: 0 <= j < |before| ==>
          if Rebuilt(before, updates, done, j)
          then StatusApplied(before[j], after[j], updates[before[j].id], now) && lo <= after[j].id < hi
          else after[j] == before[j])
    && (forall j1, j2 :: 0 <= j1 < j2 < |before| && Rebuilt(before, updates, done, j1) && Rebuilt(before, updates, done, j2)
          ==> after[j1].id != after[j2].id)
    && hi == lo + RebuiltCount(before, updates, done, |before|)
  }

  /** Entry `j` of `before` is the first one holding a handled key, so it is the one rebuilt. */
  ghost predicate Rebuilt(before: seq<User>, updates: map<Uuid, bool>, done: set<Uuid>, j: int)
    requires 0 <= j < |before|
  {
    before[j].id in updates && before[j].id in done && FirstIndexOfId(before, before[j].id) == Some(j)
  }

  /** How many of the first `n` entries of `before` are rebuilt. */
  ghost function RebuiltCount(before: seq<User>, updates: map<Uuid, bool>, done: set<Uuid>, n: nat): (c: nat)
    requires n <= |before|
    ensures c <= n
  {
    if n == 0 then 0
    else RebuiltCount(before, updates, done, n - 1) + (if Rebuilt(before, updates, done, n - 1) then 1 else 0)
  }

  /** Before any key is handled, no entry is rebuilt. */
  lemma {:induction false} NothingRebuiltYet(before: seq<User>, updates: map<Uuid, bool>, n: nat)
    requires n <= |before|
    ensures RebuiltCount(before, updates, {}, n) == 0
  {
    if n > 0 {
      NothingRebuiltYet(before, updates, n - 1);
    }
  }

  /**
   * Handling a further key `userId` adds one rebuilt entry among the first `n` exactly when the
   * first entry holding it lies among them.
   */
  lemma {:induction false} RebuiltCountAfterKey(before: seq<User>, updates: map<Uuid, bool>, done: set<Uuid>,
                                                 userId: Uuid, n: nat)
    requires n <= |before| && userId in updates && userId !in done
    ensures RebuiltCount(before, updates, done + {userId}, n) ==
      RebuiltCount(before, updates, done, n) +
      (if FirstIndexOfId(before, userId).Some? && FirstIndexOfId(before, userId).value < n then 1 else 0)
  {
    if n > 0 {
      RebuiltCountAfterKey(before, updates, done, userId, n - 1);
      RebuiltAfterKey(before, updates, done, userId);
      if FirstIndexOfId(before, userId) == Some(n - 1) {
        assert !Rebuilt(before, updates, done, n - 1);
      }
    }
  }

  /** The whole map handled: what `handleUserStatusUpdates` does to the roster. */
  ghost predicate StatusUpdatesApplied(before: seq<User>, after: seq<User>, updates: map<Uuid, bool>,
                                       now: Time, lo: nat, hi: nat)
  {
    StatusUpdatesAppliedFor(before, after, updates, updates.Keys, now, lo, hi)
  }

  /**
   * While a key is unhandled, the partly updated roster finds it where the original roster does:
   * rebuilt entries carry ids issued after every key.
   */
  lemma UnhandledKeyFoundAlike(before: seq<User>, cur: seq<User>, updates: map<Uuid, bool>,
                               done: set<Uuid>, now: Time, lo: nat, hi: nat, userId: Uuid)
    requires StatusUpdatesAppliedFor(before, cur, updates, done, now, lo, hi)
    requires userId < lo && userId !in done
    ensures FirstIndexOfId(cur, userId) == FirstIndexOfId(before, userId)
  {
    forall j | 0 <= j < |cur|
      ensures cur[j].id == userId <==> before[j].id == userId
    {
      if cur[j] != before[j] {
        assert lo <= cur[j].id;
      }
    }
    SameIdPositions(cur, before, userId);
  }

  /** Handling a key the roster does not hold changes nothing. */
  lemma AbsentKeyHandled(before: seq<User>, cur: seq<User>, updates: map<Uuid, bool>,
                         done: set<Uuid>, now: Time, lo: nat, hi: nat, userId: Uuid)
    requires StatusUpdatesAppliedFor(before, cur, updates, done, now, lo, hi)
    requires userId in updates && userId !in done
    requires FirstIndexOfId(before, userId) == None
    ensures StatusUpdatesAppliedFor(before, cur, updates, done + {userId}, now, lo, hi)
  {
    RebuiltAfterKey(before, updates, done, userId);
    RebuiltCountAfterKey(before, updates, done, userId, |before|);
  }

  /** Handling a key the roster holds rebuilds its first entry and nothing else. */
  lemma PresentKeyHandled(before: seq<User>, cur: seq<User>, updates: map<Uuid, bool>,
                          done: set<Uuid>, now: Time, lo: nat, hi: nat, userId: Uuid, i: nat, v: User)
    requires StatusUpdatesAppliedFor(before, cur, updates, done, now, lo, hi)
    requires userId in updates && userId !in done
    requires FirstIndexOfId(before, userId) == Some(i)
    requires StatusApplied(cur[i], v, updates[userId], now) && lo <= hi == v.id
    ensures StatusUpdatesAppliedFor(before, cur[i := v], updates, done + {userId}, now, lo, v.id + 1)
  {
    RebuiltAfterKey(before, updates, done, userId);
    RebuiltCountAfterKey(before, updates, done, userId, |before|);
    PresentKeyEntries(before, cur, updates, done, now, lo, hi, userId, i, v);
    PresentKeyIdsDistinct(before, cur, updates, done, now, lo, hi, userId, i, v);
  }

  /** The entry-by-entry half of `PresentKeyHandled`. */
  lemma PresentKeyEntries(before: seq<User>, cur: seq<User>, updates: map<Uuid, bool>,
                          done: set<Uuid>, now: Time, lo: nat, hi: nat, userId: Uuid, i: nat, v: User)
    requires StatusUpdatesAppliedFor(before, cur, updates, done, now, lo, hi)
    requires userId in updates && userId !in done
    requires FirstIndexOfId(before, userId) == Some(i)
    requires StatusApplied(cur[i], v, updates[userId], now) && lo <= hi <= v.id
    requires forall j :: 0 <= j < |before| ==>
      (Rebuilt(before, updates, done + {userId}, j) <==> Rebuilt(before, updates, done, j) || j == i)
    ensures forall j :: 0 <= j < |before| ==>
      if Rebuilt(before, updates, done + {userId}, j)
      then StatusApplied(before[j], cur[i := v][j], updates[before[j].id], now) && lo <= cur[i := v][j].id < v.id + 1
      else cur[i := v][j] == before[j]
  {
    assert cur[i] == before[i];
  }

  /** The distinct-ids half of `PresentKeyHandled`: the new id is above every earlier one. */
  lemma PresentKeyIdsDistinct(before: seq<User>, cur: seq<User>, updates: map<Uuid, bool>,
                              done: set<Uuid>, now: Time, lo: nat, hi: nat, userId: Uuid, i: nat, v: User)
    requires StatusUpdatesAppliedFor(before, cur, updates, done, now, lo, hi)
    requires userId in updates && userId !in done
    requires FirstIndexOfId(before, userId) == Some(i)
    requires hi <= v.id
    requires forall j :: 0 <= j < |before| ==>
      (Rebuilt(before, updates, done + {userId}, j) <==> Rebuilt(before, updates, done, j) || j == i)
    ensures forall j1, j2 :: 0 <= j1 < j2 < |before| && Rebuilt(before, updates, done + {userId}, j1)
                               && Rebuilt(before, updates, done + {userId}, j2)
              ==> cur[i := v][j1].id != cur[i := v][j2].id
  {
    assert !Rebuilt(before, updates, done, i);
  }

  /**
   * Handling `userId` marks as rebuilt exactly the first entry holding it, if it is a key and some
   * entry holds it, besides the entries marked before.
   */
  lemma RebuiltAfterKey(before: seq<User>, updates: map<Uuid, bool>, done: set<Uuid>, userId: Uuid)
    ensures forall j :: 0 <= j < |before| ==>
      (Rebuilt(before, updates, done + {userId}, j) <==>
         Rebuilt(before, updates, done, j) || (userId in updates && FirstIndexOfId(before, userId) == Some(j)))
  {
  }

  /**
   * One key handled: when `after` is `cur` with the first entry holding `userId` (if any) replaced
   * by a record with that status and id `hi`, the handled keys grow by `userId`.
   */
  lemma KeyHandled(before: seq<User>, cur: seq<User>, after: seq<User>, updates: map<Uuid, bool>,
                   done: set<Uuid>, now: Time, lo: nat, hi: nat, hi2: nat, userId: Uuid)
    requires StatusUpdatesAppliedFor(before, cur, updates, done, now, lo, hi)
    requires userId in updates && userId !in done && userId < lo && lo <= hi
    requires |after| == |cur|
    requires match FirstIndexOfId(cur, userId)
      case None => after == cur && hi2 == hi
      case Some(i) =>
        && after == cur[i := after[i]] && after[i].id == hi && hi2 == hi + 1
        && StatusApplied(cur[i], after[i], updates[userId], now)
    ensures StatusUpdatesAppliedFor(before, after, updates, done + {userId}, now, lo, hi2)
  {
    UnhandledKeyFoundAlike(before, cur, updates, done, now, lo, hi, userId);
    match FirstIndexOfId(before, userId)
    case Some(i) => PresentKeyHandled(before, cur, updates, done, now, lo, hi, userId, i, after[i]);
    case None => AbsentKeyHandled(before, cur, updates, done, now, lo, hi, userId);
  }

  /** Status updates for ids the roster does not hold change nothing. */
  lemma AbsentUpdatesChangeNothing(before: seq<User>, after: seq<User>, updates: map<Uuid, bool>,
                                   now: Time, lo: nat, hi: nat)
    requires StatusUpdatesApplied(before, after, updates, now, lo, hi)
    requires forall k :: k in updates ==> !IdOccurs(before, k)
    ensures after == before
  {
    forall j | 0 <= j < |before|
      ensures after[j] == before[j]
    {
      assert IdOccurs(before, before[j].id);
    }
  }

  /** Rebuilt entries are new records: none of them is found under an id the roster held before. */
  lemma UpdatedEntriesAreNew(before: seq<User>, after: seq<User>, updates: map<Uuid, bool>,
                             now: Time, lo: nat, hi: nat, j: nat)
    requires StatusUpdatesApplied(before, after, updates, now, lo, hi)
    requires Issued(before, lo)
    requires j < |before| && after[j] != before[j]
    ensures !IdOccurs(before, after[j].id)
  {
    FreshIdNotFound(before, lo, after[j].id);
  }

  /** Two rosters of one length that hold an id at the same positions find it at the same index. */
  lemma {:induction false} SameIdPositions(a: seq<User>, b: seq<User>, id: Uuid)
    requires |a| == |b|
    requires forall j :: 0 <= j < |a| ==> (a[j].id == id <==> b[j].id == id)
    ensures FirstIndexOfId(a, id) == FirstIndexOfId(b, id)
  {
    if |a| > 0 && a[0].id != id {
      SameIdPositions(a[1..], b[1..], id);
    }
  }
}
