/**
 * One card of the event list: the capacity text and "is full" test, the join button's enabling
 * rule, the local joined flag, and the sport's icon.
 */
module EventCards {

  import opened Wrappers
  import opened Text
  import opened Documents
  import opened SportTypes
  import opened Models
  import opened EventDecoding

  /**
   * `participantCount`: the number of participants, a slash, and the capacity. The label
   * determines both numbers.
   */
  function ParticipantCount(e: Event): (text: string)
    ensures ReadParticipantCount(text) == Some((|e.currentParticipants|, e.maxParticipants))
    ensures CanonicalLabel(text)
  {
    LabelReadsBack(|e.currentParticipants|, e.maxParticipants);
    IntToDecimal(|e.currentParticipants|) + "/" + IntToDecimal(e.maxParticipants)
  }

  /** `isFull`: the card is full exactly when its label's first number is at least its second. */
  predicate IsFull(e: Event)
    ensures IsFull(e) <==> ReadParticipantCount(ParticipantCount(e)).value.0 >= ReadParticipantCount(ParticipantCount(e)).value.1
  {
    |e.currentParticipants| >= e.maxParticipants
  }

  /**
   * The join button's `disabled` rule: a user who has joined can always press it (to leave); one
   * who has not is blocked exactly when the label shows no room left.
   */
  predicate JoinDisabled(e: Event, isJoined: bool)
    ensures isJoined ==> !JoinDisabled(e, isJoined)
    ensures !isJoined ==>
      (JoinDisabled(e, isJoined) <==> ReadParticipantCount(ParticipantCount(e)).value.0 >= ReadParticipantCount(ParticipantCount(e)).value.1)
  {
    IsFull(e) && !isJoined
  }

  /** The position of the first `c` in `s`, if there is one. */
  function IndexOf(s: string, c: char): (r: Option<nat>)
    ensures r.Some? ==> r.value < |s| && s[r.value] == c && c !in s[..r.value]
    ensures r.None? ==> c !in s
    decreases |s|
  {
    if s == [] then None
    else if s[0] == c then Some(0)
    else
      var rest := IndexOf(s[1..], c);
      if rest.Some? then
        assert s[..rest.value + 1] == [s[0]] + s[1..][..rest.value];
        Some(rest.value + 1)
      else None
  }

  /** Reads a capacity label back into its two numbers, split at the first slash. */
  function ReadParticipantCount(text: string): Option<(int, int)> {
    match IndexOf(text, '/')
    case None => None
    case Some(k) =>
      match (ParseInt(text[..k]), ParseInt(text[k + 1..]))
      case (Some(count), Some(capacity)) => Some((count, capacity))
      case _ => None
  }

  /** Both numbers of a label are written the way Swift writes integers, with no leading zeros. */
  predicate CanonicalLabel(text: string) {
    match IndexOf(text, '/')
    case None => false
    case Some(k) => Canonical(text[..k]) && Canonical(text[k + 1..])
  }

  /** A canonical label is the only one that reads back as its two numbers. */
  lemma CanonicalLabelIsUnique(text: string, e: Event)
    requires CanonicalLabel(text)
    requires ReadParticipantCount(text) == ReadParticipantCount(ParticipantCount(e))
    ensures text == ParticipantCount(e)
  {
    var k := IndexOf(text, '/').value;
    CanonicalIsIntToDecimal(text[..k], |e.currentParticipants|);
    CanonicalIsIntToDecimal(text[k + 1..], e.maxParticipants);
    assert text == text[..k] + "/" + text[k + 1..];
  }

  lemma NoSlashInDecimal(i: int)
    ensures '/' !in IntToDecimal(i)
  {
    var s := IntToDecimal(i);
    if i < 0 {
      assert s[1..] == NatToDecimal(-i);
      assert forall j :: 1 <= j < |s| ==> s[j] == NatToDecimal(-i)[j - 1];
    }
  }

  /** A label written from two numbers reads back as those numbers. */
  lemma {:induction false} LabelReadsBack(count: int, capacity: int)
    ensures ReadParticipantCount(IntToDecimal(count) + "/" + IntToDecimal(capacity)) == Some((count, capacity))
  {
    var countText := IntToDecimal(count);
    var capacityText := IntToDecimal(capacity);
    var text := countText + "/" + capacityText;
    NoSlashInDecimal(count);
    assert text[|countText|] == '/';
    var k := IndexOf(text, '/');
    assert k.Some?;
    forall j | 0 <= j < k.value ensures text[j] != '/' {
      assert text[..k.value][j] == text[j];
    }
    forall j | 0 <= j < |countText| ensures text[j] != '/' {
      assert text[j] == countText[j];
    }
    assert k == Some(|countText|);
    assert text[..|countText|] == countText;
    assert text[|countText| + 1..] == capacityText;
  }

  /**
   * A document without a usable `maxParticipants` decodes to capacity 0, so its card shows the
   * event as full and disables joining for a user who has not joined.
   */
  lemma MissingCapacityDisablesJoin(doc: Document, now: int)
    requires AsInt(Field(doc.data, "maxParticipants")).None?
    ensures DecodeEvent(doc, now).maxParticipants == 0
    ensures IsFull(DecodeEvent(doc, now))
    ensures JoinDisabled(DecodeEvent(doc, now), false) && !JoinDisabled(DecodeEvent(doc, now), true)
  {
  }

  /** `getSportIcon`: the symbol name shown for each sport. */
  function SportIcon(sport: SportType): (icon: string)
    ensures icon != ""
  {
    match sport
    case Basketball => "basketball"
    case Soccer => "soccerball"
    case Tennis => "tennisball"
    case Volleyball => "volleyball"
    case Hiking => "figure.hiking"
  }

  /** Different sports get different icons. */
  lemma SportIconInjective(a: SportType, b: SportType)
    ensures SportIcon(a) == SportIcon(b) ==> a == b
  {
  }

  /** The card's state: the event it shows, and whether the user has (locally) joined it. */
  class EventCard {
    const event: Event
    var isJoined: bool

    constructor(event: Event)
      ensures this.event == event && !isJoined
    {
      this.event := event;
      isJoined := false;
    }

    /** `toggleJoin`: flips the local flag and nothing else; no store is contacted. */
    method ToggleJoin()
      modifies this
      ensures isJoined == !old(isJoined)
    {
      isJoined := !isJoined;
    }

    /** `checkIfJoined`: signed in, the flag becomes membership of the user in the event; signed out, it stays. */
    method CheckIfJoined(uid: Option<string>)
      modifies this
      ensures uid.Some? ==> (isJoined <==> uid.value in event.currentParticipants)
      ensures uid.None? ==> isJoined == old(isJoined)
    {
      if uid.Some? {
        isJoined := uid.value in event.currentParticipants;
      }
    }
  }

  /** Pressing the button twice restores the flag and leaves the event as it was. */
  method ToggleJoinTwice(card: EventCard)
    modifies card
    ensures card.isJoined == old(card.isJoined)
  {
    card.ToggleJoin();
    card.ToggleJoin();
  }
}
