/**
 * The event directory screen's logic: the listener callback that refreshes the cached events,
 * and the `filteredEvents` projection (one of four filters, then an optional text search).
 */
module EventList {

  import opened Wrappers
  import opened Seqs
  import opened Text
  import opened Documents
  import opened SportTypes
  import opened Models
  import opened EventDecoding

  datatype EventFilter = All | Joined | Created | Upcoming

  /**
   * The filter's rule for one event. `uid` is the signed-in user's id, if any; `now` is the clock
   * at evaluation time. Signed out, "joined" looks for the empty id and "created" matches nothing.
   */
  predicate Admits(filter: EventFilter, e: Event, uid: Option<string>, now: int) {
    match filter
    case All => true
    case Joined => uid.GetOr("") in e.currentParticipants
    case Created => uid == Some(e.creatorId)
    case Upcoming => e.date > now
  }

  /** The search rule: title, sport name or venue name contains the text, ignoring case. */
  predicate SearchHit(e: Event, searchText: string) {
    || ContainsIgnoringCase(e.title, searchText)
    || ContainsIgnoringCase(RawValue(e.sportType), searchText)
    || (e.location.venueName.Some? && ContainsIgnoringCase(e.location.venueName.value, searchText))
  }

  /** `filteredEvents`: the filter first, then, for a non-empty search text, the search. */
  function FilteredEvents(events: seq<Event>, filter: EventFilter, searchText: string, uid: Option<string>, now: int)
    : (r: seq<Event>)
    ensures forall e :: e in r <==> e in events && Admits(filter, e, uid, now) && (searchText == [] || SearchHit(e, searchText))
  {
    var filtered := Filter(events, e => Admits(filter, e, uid, now));
    if searchText == [] then filtered else Filter(filtered, e => SearchHit(e, searchText))
  }

  /** The projection keeps the cache's order and invents nothing. */
  lemma {:induction false} FilteredEventsIsSubsequence(events: seq<Event>, filter: EventFilter, searchText: string, uid: Option<string>, now: int)
    ensures IsSubsequence(FilteredEvents(events, filter, searchText, uid, now), events)
  {
    var admit := e => Admits(filter, e, uid, now);
    var filtered := Filter(events, admit);
    FilterIsSubsequence(events, admit);
    if searchText != [] {
      var hit := e => SearchHit(e, searchText);
      FilterIsSubsequence(filtered, hit);
      SubsequenceTransitive(Filter(filtered, hit), filtered, events);
    }
  }

  /**
   * Each event of the cache appears in the projection exactly as often as in the cache when it
   * passes the filter and the search, and not at all otherwise.
   */
  lemma {:induction false} FilteredEventsMultiplicity(events: seq<Event>, filter: EventFilter, searchText: string, uid: Option<string>, now: int, e: Event)
    ensures multiset(FilteredEvents(events, filter, searchText, uid, now))[e]
         == if Admits(filter, e, uid, now) && (searchText == [] || SearchHit(e, searchText)) then multiset(events)[e] else 0
  {
    var admit := e => Admits(filter, e, uid, now);
    FilterMultiplicity(events, admit, e);
    if searchText != [] {
      FilterMultiplicity(Filter(events, admit), e => SearchHit(e, searchText), e);
    }
  }

  /** With the "All" filter and no search text the projection is the cache itself. */
  lemma {:induction false} AllWithoutSearchIsIdentity(events: seq<Event>, uid: Option<string>, now: int)
    ensures FilteredEvents(events, All, "", uid, now) == events
  {
    FilterKeepsAll(events, e => Admits(All, e, uid, now));
  }

  /** Signed out, the "Created" filter shows nothing. */
  lemma SignedOutCreatedIsEmpty(events: seq<Event>, searchText: string, now: int)
    ensures FilteredEvents(events, Created, searchText, None, now) == []
  {
    FilterKeepsNone(events, e => Admits(Created, e, None, now));
  }

  /** A search text found in the title selects the event, whatever the case of its letters. */
  lemma FridayBballRunMatches(e: Event)
    requires e.title == "Friday Bball Run"
    ensures SearchHit(e, "bball")
  {
    assert e.title[7..12] == "Bball";
    assert Fold("Bball") == Fold("bball");
    assert MatchesAt(e.title, "bball", 7);
  }

  /** Of two events, "Joined" for user "u1" keeps only the one whose participants include "u1". */
  lemma JoinedKeepsOnlyOwnEvents(first: Event, second: Event, now: int)
    requires first.currentParticipants == ["u1"] && second.currentParticipants == ["u2"]
    ensures FilteredEvents([first, second], Joined, "", Some("u1"), now) == [first]
  {
    var p := e => Admits(Joined, e, Some("u1"), now);
    assert [first, second][1..] == [second];
    assert [second][1..] == [];
    assert "u1" !in second.currentParticipants;
    assert Filter([second], p) == [];
    assert Filter([first, second], p) == [first];
  }

  /**
   * The screen's state: the cached events and the loading flag, both updated only by the
   * events listener's callback.
   */
  class EventListView {
    var events: seq<Event>
    var isLoading: bool

    constructor()
      ensures events == [] && isLoading
    {
      events := [];
      isLoading := true;
    }

    /**
     * The snapshot listener's callback. Any delivery ends loading; an error, or a delivery without
     * a snapshot, leaves the cache as it was; a snapshot replaces the whole cache by its documents,
     * decoded one by one. `now` is the clock when the callback runs.
     */
    method OnEventsSnapshot(snapshot: Option<seq<Document>>, failed: bool, now: int)
      modifies this
      ensures !isLoading
      ensures failed || snapshot.None? ==> events == old(events)
      ensures !failed && snapshot.Some? ==> events == DecodeEvents(snapshot.value, now)
    {
      isLoading := false;
      if failed {
        return;
      }
      if snapshot.None? {
        return;
      }
      events := DecodeEvents(snapshot.value, now);
    }
  }
}
