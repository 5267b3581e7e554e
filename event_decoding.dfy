/**
 * The closure `fetchEvents` passes to `compactMap`: every field of an event document is read with a
 * conditional cast, and a missing or ill-typed field is replaced by a fixed default.
 */
module EventDecoding {

  import opened Wrappers
  import opened Documents
  import opened SportTypes
  import opened Models
  import opened Seqs

  /** The fields of the `events/{id}` schema, and of its embedded `location` map. */
  const EventKeys: set<string> :=
    {"date", "location", "sportType", "title", "description", "maxParticipants", "currentParticipants", "creatorId"}
  const LocationKeys: set<string> := {"latitude", "longitude", "address", "venueName"}

  /** `v` has the type the decoder casts field `key` of an event document to. */
  predicate WellTypedEventField(key: string, v: Value) {
    if key == "date" then v.TimestampValue?
    else if key == "location" then v.MapValue?
    else if key == "maxParticipants" then v.IntValue?
    else if key == "currentParticipants" then
      v.ArrayValue? && forall i :: 0 <= i < |v.elements| ==> v.elements[i].StringValue?
    else v.StringValue?
  }

  /** `v` has the type the decoder casts field `key` of a `location` map to. */
  predicate WellTypedLocationField(key: string, v: Value) {
    if key == "latitude" || key == "longitude" then v.DoubleValue? else v.StringValue?
  }

  /** Field `key` is present with the type the decoder expects. */
  predicate Usable(data: Fields, key: string) {
    key in data && WellTypedEventField(key, data[key])
  }

  predicate UsableLocation(fields: Fields, key: string) {
    key in fields && WellTypedLocationField(key, fields[key])
  }

  /**
   * The location of a document: its `location` map (or `[:]`), read field by field. Each coordinate
   * is the stored double or 0, the address the stored string or "", the venue name the stored
   * string or nil; without a usable map, every field takes its default.
   */
  function DecodeLocation(data: Fields): (loc: Location)
    ensures !Usable(data, "location") ==> loc == Location(0.0, 0.0, "", None)
    ensures Usable(data, "location") ==>
      var fields := data["location"].fields;
      && loc.latitude == (if UsableLocation(fields, "latitude") then fields["latitude"].d else 0.0)
      && loc.longitude == (if UsableLocation(fields, "longitude") then fields["longitude"].d else 0.0)
      && loc.address == (if UsableLocation(fields, "address") then fields["address"].s else "")
      && loc.venueName == (if UsableLocation(fields, "venueName") then Some(fields["venueName"].s) else None)
  {
    var fields := AsMap(Field(data, "location")).GetOr(map[]);
    Location(
      AsDouble(Field(fields, "latitude")).GetOr(0.0),
      AsDouble(Field(fields, "longitude")).GetOr(0.0),
      AsString(Field(fields, "address")).GetOr(""),
      AsString(Field(fields, "venueName")))
  }

  /** The sport of a document: its `sportType` string (or `""`) parsed, falling back to basketball. */
  function DecodeSportType(data: Fields): (sport: SportType)
    ensures forall s: SportType :: Field(data, "sportType") == Some(StringValue(RawValue(s))) ==> sport == s
    ensures sport == Basketball || Field(data, "sportType") == Some(StringValue(RawValue(sport)))
  {
    FromRawValue(AsString(Field(data, "sportType")).GetOr("")).GetOr(Basketball)
  }

  /** One document to one event. Dates default to `now`, the clock reading at decode time. */
  function DecodeEvent(doc: Document, now: int): (e: Event)
    ensures e.id == doc.documentID
  {
    var data := doc.data;
    Event(
      doc.documentID,
      AsString(Field(data, "title")).GetOr(""),
      AsString(Field(data, "description")).GetOr(""),
      DecodeSportType(data),
      DecodeLocation(data),
      AsTimestamp(Field(data, "date")).GetOr(now),
      AsInt(Field(data, "maxParticipants")).GetOr(0),
      AsStringArray(Field(data, "currentParticipants")).GetOr([]),
      AsString(Field(data, "creatorId")).GetOr(""))
  }

  /**
   * `documents.compactMap { ... }`. The closure never returns `nil`, so no document is dropped:
   * the i-th event is the i-th document decoded.
   */
  function DecodeEvents(documents: seq<Document>, now: int): (events: seq<Event>)
    ensures |events| == |documents|
    ensures forall i :: 0 <= i < |documents| ==> events[i] == DecodeEvent(documents[i], now)
  {
    var decode := (doc: Document) => Some(DecodeEvent(doc, now));
    CompactMapTotal(documents, decode);
    CompactMap(documents, decode)
  }

  /** The event a document without any usable field decodes to. */
  function DefaultEvent(id: string, now: int): Event {
    Event(id, "", "", Basketball, Location(0.0, 0.0, "", None), now, 0, [], "")
  }

  // ---- Each field on its own: the stored value when usable, the default otherwise ----

  lemma DecodesTitle(doc: Document, now: int)
    ensures Usable(doc.data, "title") ==> DecodeEvent(doc, now).title == doc.data["title"].s
    ensures !Usable(doc.data, "title") ==> DecodeEvent(doc, now).title == ""
  {
  }

  lemma DecodesDescription(doc: Document, now: int)
    ensures Usable(doc.data, "description") ==> DecodeEvent(doc, now).description == doc.data["description"].s
    ensures !Usable(doc.data, "description") ==> DecodeEvent(doc, now).description == ""
  {
  }

  lemma DecodesCreatorId(doc: Document, now: int)
    ensures Usable(doc.data, "creatorId") ==> DecodeEvent(doc, now).creatorId == doc.data["creatorId"].s
    ensures !Usable(doc.data, "creatorId") ==> DecodeEvent(doc, now).creatorId == ""
  {
  }

  /** A document without a usable timestamp is dated at the moment it is decoded. */
  lemma DecodesDate(doc: Document, now: int)
    ensures Usable(doc.data, "date") ==> DecodeEvent(doc, now).date == doc.data["date"].seconds
    ensures !Usable(doc.data, "date") ==> DecodeEvent(doc, now).date == now
  {
  }

  lemma DecodesCapacity(doc: Document, now: int)
    ensures Usable(doc.data, "maxParticipants") ==> DecodeEvent(doc, now).maxParticipants == doc.data["maxParticipants"].i
    ensures !Usable(doc.data, "maxParticipants") ==> DecodeEvent(doc, now).maxParticipants == 0
  {
  }

  /** The participants are the stored strings in order, or none when any element is not a string. */
  lemma DecodesParticipants(doc: Document, now: int)
    ensures Usable(doc.data, "currentParticipants") ==>
      var elements := doc.data["currentParticipants"].elements;
      && |DecodeEvent(doc, now).currentParticipants| == |elements|
      && forall i :: 0 <= i < |elements| ==> DecodeEvent(doc, now).currentParticipants[i] == elements[i].s
    ensures !Usable(doc.data, "currentParticipants") ==> DecodeEvent(doc, now).currentParticipants == []
  {
  }

  /** A field that is not part of the schema, or has the wrong type, is ignored as if it were absent. */
  lemma UnusableFieldIsIgnored(doc: Document, key: string, now: int)
    requires key in doc.data
    requires key !in EventKeys || !WellTypedEventField(key, doc.data[key])
    ensures DecodeEvent(Document(doc.documentID, doc.data - {key}), now) == DecodeEvent(doc, now)
  {
  }

  /** The same for the fields of the embedded `location` map. */
  lemma UnusableLocationFieldIsIgnored(doc: Document, fields: Fields, key: string, now: int)
    requires Field(doc.data, "location") == Some(MapValue(fields))
    requires key in fields
    requires key !in LocationKeys || !WellTypedLocationField(key, fields[key])
    ensures DecodeEvent(Document(doc.documentID, doc.data["location" := MapValue(fields - {key})]), now)
         == DecodeEvent(doc, now)
  {
  }

  /**
   * A document none of whose fields is usable decodes to the defaults: basketball, capacity 0,
   * no participants, empty strings, location (0, 0, "", nil), and the current time.
   */
  lemma UnusableDocumentDecodesToDefaults(doc: Document, now: int)
    requires forall key :: key in doc.data ==> key !in EventKeys || !WellTypedEventField(key, doc.data[key])
    ensures DecodeEvent(doc, now) == DefaultEvent(doc.documentID, now)
  {
    var data := doc.data;
    forall key | key in EventKeys && key in data ensures !WellTypedEventField(key, data[key]) {
    }
    var e := DecodeEvent(doc, now);
    assert e.title == "" by { if "title" in data { assert !data["title"].StringValue?; } }
    assert e.description == "" by { if "description" in data { assert !data["description"].StringValue?; } }
    assert e.creatorId == "" by { if "creatorId" in data { assert !data["creatorId"].StringValue?; } }
    assert e.sportType == Basketball by { if "sportType" in data { assert !data["sportType"].StringValue?; } }
    assert e.date == now by { if "date" in data { assert !data["date"].TimestampValue?; } }
    assert e.maxParticipants == 0 by { if "maxParticipants" in data { assert !data["maxParticipants"].IntValue?; } }
    assert e.location == Location(0.0, 0.0, "", None) by {
      if "location" in data { assert !data["location"].MapValue?; }
    }
    assert e.currentParticipants == [] by {
      if "currentParticipants" in data {
        assert !WellTypedEventField("currentParticipants", data["currentParticipants"]);
      }
    }
  }

  /** A sport string that is not one of the five raw values (say "Unknown" or "basketball") becomes basketball. */
  lemma UnknownSportDefaultsToBasketball(doc: Document, raw: string, now: int)
    requires Field(doc.data, "sportType") == Some(StringValue(raw))
    requires FromRawValue(raw).None?
    ensures DecodeEvent(doc, now).sportType == Basketball
  {
  }

  // ---- The wire schema, as the reference the decoder is checked against ----

  /** The `location` map a location is stored as; an absent venue name is left out. */
  function LocationFields(loc: Location): (fields: Fields)
    ensures fields.Keys <= LocationKeys
    ensures forall key :: key in fields ==> WellTypedLocationField(key, fields[key])
  {
    var base := map[
      "latitude" := DoubleValue(loc.latitude),
      "longitude" := DoubleValue(loc.longitude),
      "address" := StringValue(loc.address)];
    if loc.venueName.Some? then base["venueName" := StringValue(loc.venueName.value)] else base
  }

  /** The `events/{id}` document data an event is stored as. */
  function EventFields(e: Event): (fields: Fields)
    ensures fields.Keys == EventKeys
    ensures forall key :: key in fields ==> WellTypedEventField(key, fields[key])
  {
    map[
      "title" := StringValue(e.title),
      "description" := StringValue(e.description),
      "sportType" := StringValue(RawValue(e.sportType)),
      "location" := MapValue(LocationFields(e.location)),
      "date" := TimestampValue(e.date),
      "maxParticipants" := IntValue(e.maxParticipants),
      "currentParticipants" := StringArray(e.currentParticipants),
      "creatorId" := StringValue(e.creatorId)]
  }

  /** A stored event decodes back to itself, whatever the clock says. */
  lemma {:induction false} DecodeStoredEvent(e: Event, now: int)
    ensures DecodeEvent(Document(e.id, EventFields(e)), now) == e
  {
    StringArrayRoundTrip(e.currentParticipants);
    RawValueRoundTrip(e.sportType);
  }

  /** A snapshot of stored events decodes back to those events, in order. */
  lemma {:induction false} DecodeStoredSnapshot(events: seq<Event>, now: int)
    ensures DecodeEvents(seq(|events|, i requires 0 <= i < |events| => Document(events[i].id, EventFields(events[i]))), now)
         == events
  {
    var documents := seq(|events|, i requires 0 <= i < |events| => Document(events[i].id, EventFields(events[i])));
    forall i | 0 <= i < |events| ensures DecodeEvents(documents, now)[i] == events[i] {
      DecodeStoredEvent(events[i], now);
    }
  }
}
