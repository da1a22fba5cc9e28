/**
 * `AnalyticsService`: an append-only log of user interactions and per-kind session counters.
 * The session clock (`timeSpent`, a floating-point interval refreshed every second) is not modelled.
 */
module Analytics {
  import opened Common

  datatype InteractionType = ProfileView | MessagesSent | SwipeLeft | SwipeRight | Search

  datatype UserInteraction = UserInteraction(id: Uuid, kind: InteractionType, userId: Option<Uuid>, timestamp: Time)

  datatype SessionMetrics = SessionMetrics(sessionStart: Time, profileViews: nat, messagesSent: nat, searchQueries: nat)

  /** How many interactions of `log` are of kind `kind`. */
  function Tally(log: seq<UserInteraction>, kind: InteractionType): (n: nat)
    ensures n <= |log|
  {
    if log == [] then 0
    else Tally(log[..|log| - 1], kind) + (if log[|log| - 1].kind == kind then 1 else 0)
  }

  /** Appending one interaction raises its own kind's tally by one and leaves the others alone. */
  lemma TallyAppend(log: seq<UserInteraction>, x: UserInteraction, kind: InteractionType)
    ensures Tally(log + [x], kind) == Tally(log, kind) + (if x.kind == kind then 1 else 0)
  {
    assert (log + [x])[..|log|] == log;
  }

  /** A tally never decreases as the log grows. */
  lemma {:induction false} TallyMonotone(log: seq<UserInteraction>, more: seq<UserInteraction>, kind: InteractionType)
    ensures Tally(log, kind) <= Tally(log + more, kind)
  {
    if more == [] {
      assert log + more == log;
    } else {
      var init := more[..|more| - 1];
      assert log + more == (log + init) + [more[|more| - 1]];
      TallyMonotone(log, init, kind);
      TallyAppend(log + init, more[|more| - 1], kind);
    }
  }

  class AnalyticsService {
    const ids: UuidSource
    var userInteractions: seq<UserInteraction>
    var sessionMetrics: SessionMetrics

    /** Each counter is the number of logged interactions of its kind. */
    ghost predicate Valid()
      reads this
    {
      && sessionMetrics.profileViews == Tally(userInteractions, ProfileView)
      && sessionMetrics.messagesSent == Tally(userInteractions, MessagesSent)
      && sessionMetrics.searchQueries == Tally(userInteractions, Search)
    }

    /** A new session starting at `now`, with an empty log and zero counters. */
    constructor(ids: UuidSource, now: Time)
      ensures Valid() && this.ids == ids
      ensures userInteractions == [] && sessionMetrics == SessionMetrics(now, 0, 0, 0)
    {
      this.ids := ids;
      userInteractions := [];
      sessionMetrics := SessionMetrics(now, 0, 0, 0);
    }

    /**
     * `trackInteraction(type, userId:)` at `now`: exactly one entry is appended, then counted; the
     * session start is kept.
     */
    method TrackInteraction(kind: InteractionType, userId: Option<Uuid>, now: Time)
      requires Valid()
      modifies this`userInteractions, this`sessionMetrics, ids
      ensures Valid()
      ensures userInteractions == old(userInteractions) + [UserInteraction(old(ids.next), kind, userId, now)]
      ensures sessionMetrics.sessionStart == old(sessionMetrics.sessionStart)
      ensures ids.next == old(ids.next) + 1
    {
      var id := ids.Fresh();
      var interaction := UserInteraction(id, kind, userId, now);
      var log := userInteractions;
      userInteractions := log + [interaction];
      UpdateMetrics(kind);
      TallyAppend(log, interaction, ProfileView);
      TallyAppend(log, interaction, MessagesSent);
      TallyAppend(log, interaction, Search);
    }

    /**
     * `updateMetrics(for:)`: a profile view, a sent message or a search raises its own counter by
     * one; a swipe changes no counter. The session start never changes.
     */
    method UpdateMetrics(kind: InteractionType)
      modifies this`sessionMetrics
      ensures sessionMetrics.sessionStart == old(sessionMetrics.sessionStart)
      ensures sessionMetrics.profileViews == old(sessionMetrics.profileViews) + (if kind == ProfileView then 1 else 0)
      ensures sessionMetrics.messagesSent == old(sessionMetrics.messagesSent) + (if kind == MessagesSent then 1 else 0)
      ensures sessionMetrics.searchQueries == old(sessionMetrics.searchQueries) + (if kind == Search then 1 else 0)
    {
      match kind
      case ProfileView =>
        sessionMetrics := sessionMetrics.(profileViews := sessionMetrics.profileViews + 1);
      case MessagesSent =>
        sessionMetrics := sessionMetrics.(messagesSent := sessionMetrics.messagesSent + 1);
      case Search =>
        sessionMetrics := sessionMetrics.(searchQueries := sessionMetrics.searchQueries + 1);
      case _ =>
    }
  }
}
