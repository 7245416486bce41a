/**
  The session data model of the conference client and its decoders: every record is
  built from an untyped JSON object and never fails; a missing or mistyped field takes
  a fixed default (`""`, `0`, the epoch, an empty list or the default nested record).
  The encoders at the end write a record back in the wire format, so that decoding can
  be shown to invert them.
 */
module SessionModel {
  import opened Wrappers
  import opened JsonValue

  /** An `NSDate`, as whole seconds since 1970-01-01T00:00:00Z. */
  type Timestamp = int

  /** `NSDate(timeIntervalSince1970: 0)`, the default start time. */
  const Epoch: Timestamp := 0

  /**
    `Schedule.parseDate`: a date formatter for the pattern "yyyy-MM-dd'T'HH:mm:ss".
    The formatter belongs to Foundation, so the model takes it as a parameter.
   */
  type DateParser = string -> Option<Timestamp>

  datatype Speaker = Speaker(
    id: string,
    name: string,
    photoPath: string,
    twitterUsername: string,
    bio: string)

  /** `endDateTime` (the current clock, never used) is not part of the model. */
  datatype Schedule = Schedule(
    startDateTime: Timestamp,
    venue: string,
    eventSessionRegistrationId: int,
    status: string,
    isToday: bool,
    formattedVenueString: string,
    formattedStartDate: string)

  datatype SessionDetails = SessionDetails(
    audience: string,
    topic: string,
    theme: string,
    product: string,
    level: string)

  datatype Session = Session(
    eventSessionId: int,
    eventSessionRegistrationId: int,
    sessionId: int,
    name: string,
    speakers: seq<Speaker>,
    schedule: Schedule,
    description: string,
    details: SessionDetails,
    isCommonSession: bool)

  datatype GetSessionsResponse = GetSessionsResponse(
    pageNumber: int,
    pagesCount: int,
    registrationId: int,
    sessions: seq<Session>)

  const DefaultSchedule := Schedule(Epoch, "", 0, "", false, "", "")
  const DefaultDetails := SessionDetails("", "", "", "", "")
  const DefaultSession := Session(0, 0, 0, "", [], DefaultSchedule, "", DefaultDetails, false)
  const DefaultResponse := GetSessionsResponse(0, 0, 0, [])

  // ---------------------------------------------------------------------------
  // Decoders: `init(dictionary:)`
  // ---------------------------------------------------------------------------

  /** `Speaker.init(dictionary:)`; `twitterUsername` is a constant `""` in the source. */
  function DecodeSpeaker(d: Object): (r: Speaker)
    ensures r.id == (if HasString(d, "Id") then d["Id"].str else "")
    ensures r.name == (if HasString(d, "Name") then d["Name"].str else "")
    ensures r.photoPath == (if HasString(d, "PhotoPath") then d["PhotoPath"].str else "")
    ensures r.bio == (if HasString(d, "Bio") then d["Bio"].str else "")
    ensures r.twitterUsername == ""
  {
    Speaker(StringOr(d, "Id", ""), StringOr(d, "Name", ""), StringOr(d, "PhotoPath", ""), "",
            StringOr(d, "Bio", ""))
  }

  /** `Schedule.init(dictionary:)`; `isToday` is a constant `false` in the source. */
  function DecodeSchedule(d: Object, parse: DateParser): (r: Schedule)
    ensures HasString(d, "StartDatetime") && parse(d["StartDatetime"].str).Some? ==>
              r.startDateTime == parse(d["StartDatetime"].str).value
    ensures !(HasString(d, "StartDatetime") && parse(d["StartDatetime"].str).Some?) ==>
              r.startDateTime == Epoch
    ensures r.venue == (if HasString(d, "Venue") then d["Venue"].str else "")
    ensures r.eventSessionRegistrationId ==
              (if HasInt(d, "EventSessionRegistrationId") then d["EventSessionRegistrationId"].n else 0)
    ensures r.status == (if HasString(d, "Status") then d["Status"].str else "")
    ensures r.formattedVenueString ==
              (if HasString(d, "FormattedVenueString") then d["FormattedVenueString"].str else "")
    ensures r.formattedStartDate ==
              (if HasString(d, "FormattedStartDate") then d["FormattedStartDate"].str else "")
    ensures !r.isToday
  {
    var start :=
      if HasString(d, "StartDatetime") && parse(d["StartDatetime"].str).Some?
      then parse(d["StartDatetime"].str).value
      else Epoch;
    Schedule(start, StringOr(d, "Venue", ""), IntOr(d, "EventSessionRegistrationId", 0),
             StringOr(d, "Status", ""), false, StringOr(d, "FormattedVenueString", ""),
             StringOr(d, "FormattedStartDate", ""))
  }

  /**
    `Schedule.init()`, which decodes the empty dictionary. The empty dictionary has no
    `StartDatetime`, so the parser is never consulted and the result is the same for every parser.
   */
  function NewSchedule(parse: DateParser): (r: Schedule)
    ensures r == DefaultSchedule
  {
    DecodeSchedule(map[], parse)
  }

  /** `SessionDetails.init(dictionary:)` */
  function DecodeDetails(d: Object): (r: SessionDetails)
    ensures r.audience == (if HasString(d, "Audience") then d["Audience"].str else "")
    ensures r.topic == (if HasString(d, "Topic") then d["Topic"].str else "")
    ensures r.theme == (if HasString(d, "Theme") then d["Theme"].str else "")
    ensures r.product == (if HasString(d, "Product") then d["Product"].str else "")
    ensures r.level == (if HasString(d, "Level") then d["Level"].str else "")
  {
    SessionDetails(StringOr(d, "Audience", ""), StringOr(d, "Topic", ""), StringOr(d, "Theme", ""),
                   StringOr(d, "Product", ""), StringOr(d, "Level", ""))
  }

  /** `SessionDetails.init()`, which decodes the empty dictionary. */
  function NewDetails(): (r: SessionDetails)
    ensures r == DefaultDetails
  {
    DecodeDetails(map[])
  }

  /** `x.map { Speaker(dictionary: $0) }` */
  function DecodeSpeakers(xs: seq<Object>): seq<Speaker> {
    seq(|xs|, i requires 0 <= i < |xs| => DecodeSpeaker(xs[i]))
  }

  /**
    `Session.init(dictionary:)`. `Speakers` decodes element by element only when it is an
    array of objects; one non-object element makes the whole cast fail and the list empty.
   */
  function DecodeSession(d: Object, parse: DateParser): (r: Session)
    ensures r.eventSessionId == (if HasInt(d, "EventSessionId") then d["EventSessionId"].n else 0)
    ensures r.eventSessionRegistrationId ==
              (if HasInt(d, "EventSessionRegistrationId") then d["EventSessionRegistrationId"].n else 0)
    ensures r.sessionId == (if HasInt(d, "SessionId") then d["SessionId"].n else 0)
    ensures r.name == (if HasString(d, "Name") then d["Name"].str else "")
    ensures HasObjectArray(d, "Speakers") ==>
              |r.speakers| == |d["Speakers"].items| &&
              forall i :: 0 <= i < |r.speakers| ==>
                r.speakers[i] == DecodeSpeaker(d["Speakers"].items[i].fields)
    ensures !HasObjectArray(d, "Speakers") ==> r.speakers == []
    ensures r.schedule ==
              (if HasObject(d, "Schedule") then DecodeSchedule(d["Schedule"].fields, parse)
               else DefaultSchedule)
    ensures r.description == (if HasString(d, "Description") then d["Description"].str else "")
    ensures r.details ==
              (if HasObject(d, "Details") then DecodeDetails(d["Details"].fields) else DefaultDetails)
    ensures !r.isCommonSession
  {
    var speakers := match ObjectArrayAt(d, "Speakers") {
      case Some(x) => DecodeSpeakers(x)
      case None => []
    };
    var schedule :=
      if HasObject(d, "Schedule") then DecodeSchedule(d["Schedule"].fields, parse) else NewSchedule(parse);
    var details := if HasObject(d, "Details") then DecodeDetails(d["Details"].fields) else NewDetails();
    Session(IntOr(d, "EventSessionId", 0), IntOr(d, "EventSessionRegistrationId", 0),
            IntOr(d, "SessionId", 0), StringOr(d, "Name", ""), speakers, schedule,
            StringOr(d, "Description", ""), details, false)
  }

  /**
    `Session.init()`, which decodes the empty dictionary; like `Schedule.init()`, its result
    does not depend on the parser.
   */
  function NewSession(parse: DateParser): (r: Session)
    ensures r == DefaultSession
  {
    DecodeSession(map[], parse)
  }

  /** `sd.map { Session(dictionary: $0) }` */
  function DecodeSessions(xs: seq<Object>, parse: DateParser): seq<Session> {
    seq(|xs|, i requires 0 <= i < |xs| => DecodeSession(xs[i], parse))
  }

  /** `GetSessionsResponse.init(dictionary:)` */
  function DecodeResponse(d: Object, parse: DateParser): (r: GetSessionsResponse)
    ensures r.pageNumber == (if HasInt(d, "PageNumber") then d["PageNumber"].n else 0)
    ensures r.pagesCount == (if HasInt(d, "PagesCount") then d["PagesCount"].n else 0)
    ensures r.registrationId == (if HasInt(d, "RegistrationId") then d["RegistrationId"].n else 0)
    ensures HasObjectArray(d, "Sessions") ==>
              |r.sessions| == |d["Sessions"].items| &&
              forall i :: 0 <= i < |r.sessions| ==>
                r.sessions[i] == DecodeSession(d["Sessions"].items[i].fields, parse)
    ensures !HasObjectArray(d, "Sessions") ==> r.sessions == []
  {
    var sessions := match ObjectArrayAt(d, "Sessions") {
      case Some(sd) => DecodeSessions(sd, parse)
      case None => []
    };
    GetSessionsResponse(IntOr(d, "PageNumber", 0), IntOr(d, "PagesCount", 0),
                        IntOr(d, "RegistrationId", 0), sessions)
  }

  // ---------------------------------------------------------------------------
  // Properties of the decoders
  // ---------------------------------------------------------------------------

  /** Decoding the empty object gives the all-defaults record, for every record type. */
  lemma EmptyObjectDecodesToDefaults(parse: DateParser)
    ensures DecodeSpeaker(map[]) == Speaker("", "", "", "", "")
    ensures DecodeSchedule(map[], parse) == DefaultSchedule
    ensures DecodeDetails(map[]) == DefaultDetails
    ensures DecodeSession(map[], parse) == DefaultSession
    ensures DecodeResponse(map[], parse) == DefaultResponse
  {
  }

  /**
    A sample session in the wire format, built from the sample objects the source records
    beside its `Speaker`, `Schedule`, `SessionDetails` and `Session` types.
   */
  const SampleSpeakerId := "0aVRnK0oxZF9up88dVfOpg%3D%3D"
  const SampleSpeakerName := "Alan Burchill"
  const SampleStart := "2015-09-03T09:00:00"
  const SampleVenue := "New Zealand 1 (SKYCITY)"
  const SampleSessionName := "Internet Explorer and Edge in the Enterprise [M336]"
  const SampleSpeakerJson: Object := map["Id" := JStr(SampleSpeakerId), "Name" := JStr(SampleSpeakerName)]
  const SampleScheduleJson: Object :=
    map["StartDatetime" := JStr(SampleStart), "Venue" := JStr(SampleVenue)]
  const SampleDetailsJson: Object := map["Level" := JStr("Level 300")]
  const SampleSessionJson: Object := map[
    "EventSessionId" := JInt(0), "SessionId" := JInt(92), "Name" := JStr(SampleSessionName),
    "Speakers" := JArr([JObj(SampleSpeakerJson)]),
    "Schedule" := JObj(SampleScheduleJson),
    "Details" := JObj(SampleDetailsJson)]

  /**
    The sample session decodes to the expected record: its id, name, single speaker,
    venue and level, and a start time that is the parser's result for its date string
    (or the epoch when the parser rejects it).
   */
  lemma SampleSessionDecodes(parse: DateParser)
    ensures DecodeSession(SampleSessionJson, parse).sessionId == 92
    ensures DecodeSession(SampleSessionJson, parse).name == SampleSessionName
    ensures DecodeSession(SampleSessionJson, parse).speakers == [Speaker(SampleSpeakerId, SampleSpeakerName, "", "", "")]
    ensures DecodeSession(SampleSessionJson, parse).schedule.startDateTime ==
              (match parse(SampleStart) case Some(t) => t case None => Epoch)
    ensures DecodeSession(SampleSessionJson, parse).schedule.venue == SampleVenue
    ensures DecodeSession(SampleSessionJson, parse).details.level == "Level 300"
  {
    SampleLookups();
    SampleFieldsDecode(SampleSessionJson, parse);
  }

  lemma SampleLookups()
    ensures "SessionId" in SampleSessionJson && SampleSessionJson["SessionId"] == JInt(92)
    ensures "Name" in SampleSessionJson && SampleSessionJson["Name"] == JStr(SampleSessionName)
    ensures "Speakers" in SampleSessionJson && SampleSessionJson["Speakers"] == JArr([JObj(SampleSpeakerJson)])
    ensures "Schedule" in SampleSessionJson && SampleSessionJson["Schedule"] == JObj(SampleScheduleJson)
    ensures "Details" in SampleSessionJson && SampleSessionJson["Details"] == JObj(SampleDetailsJson)
  {
  }

  lemma SampleFieldsDecode(d: Object, parse: DateParser)
    requires "SessionId" in d && d["SessionId"] == JInt(92)
    requires "Name" in d && d["Name"] == JStr(SampleSessionName)
    requires "Speakers" in d && d["Speakers"] == JArr([JObj(SampleSpeakerJson)])
    requires "Schedule" in d && d["Schedule"] == JObj(SampleScheduleJson)
    requires "Details" in d && d["Details"] == JObj(SampleDetailsJson)
    ensures DecodeSession(d, parse).sessionId == 92
    ensures DecodeSession(d, parse).name == SampleSessionName
    ensures DecodeSession(d, parse).speakers == [Speaker(SampleSpeakerId, SampleSpeakerName, "", "", "")]
    ensures DecodeSession(d, parse).schedule.startDateTime ==
              (match parse(SampleStart) case Some(t) => t case None => Epoch)
    ensures DecodeSession(d, parse).schedule.venue == SampleVenue
    ensures DecodeSession(d, parse).details.level == "Level 300"
  {
    SampleSpeakerDecodes(d, parse);
    SampleScheduleDecodes(parse);
    SampleDetailsDecodes();
  }

  lemma SampleSpeakerDecodes(d: Object, parse: DateParser)
    requires "Speakers" in d && d["Speakers"] == JArr([JObj(SampleSpeakerJson)])
    ensures DecodeSession(d, parse).speakers == [Speaker(SampleSpeakerId, SampleSpeakerName, "", "", "")]
  {
    assert HasObjectArray(d, "Speakers");
    var r := DecodeSession(d, parse).speakers;
    assert |r| == 1 && r[0] == DecodeSpeaker(SampleSpeakerJson);
  }

  lemma SampleScheduleDecodes(parse: DateParser)
    ensures DecodeSchedule(SampleScheduleJson, parse).startDateTime ==
              (match parse(SampleStart) case Some(t) => t case None => Epoch)
    ensures DecodeSchedule(SampleScheduleJson, parse).venue == SampleVenue
  {
    assert SampleScheduleJson["StartDatetime"] == JStr(SampleStart);
  }

  lemma SampleDetailsDecodes()
    ensures DecodeDetails(SampleDetailsJson).level == "Level 300"
  {
  }

  // ---------------------------------------------------------------------------
  // Encoders: the wire format of each record, and the round trips
  // ---------------------------------------------------------------------------

  function EncodeSpeaker(s: Speaker): Object {
    map["Id" := JStr(s.id), "Name" := JStr(s.name), "PhotoPath" := JStr(s.photoPath),
        "Bio" := JStr(s.bio)]
  }

  /** `format` writes a timestamp in the "yyyy-MM-dd'T'HH:mm:ss" pattern. */
  function EncodeSchedule(s: Schedule, format: Timestamp -> string): Object {
    map["StartDatetime" := JStr(format(s.startDateTime)), "Venue" := JStr(s.venue),
        "EventSessionRegistrationId" := JInt(s.eventSessionRegistrationId),
        "Status" := JStr(s.status), "FormattedVenueString" := JStr(s.formattedVenueString),
        "FormattedStartDate" := JStr(s.formattedStartDate)]
  }

  function EncodeDetails(s: SessionDetails): Object {
    map["Audience" := JStr(s.audience), "Topic" := JStr(s.topic), "Theme" := JStr(s.theme),
        "Product" := JStr(s.product), "Level" := JStr(s.level)]
  }

  function EncodeSession(s: Session, format: Timestamp -> string): Object {
    map["EventSessionId" := JInt(s.eventSessionId),
        "EventSessionRegistrationId" := JInt(s.eventSessionRegistrationId),
        "SessionId" := JInt(s.sessionId), "Name" := JStr(s.name),
        "Speakers" := JArr(EncodeSpeakers(s.speakers)),
        "Schedule" := JObj(EncodeSchedule(s.schedule, format)),
        "Description" := JStr(s.description),
        "Details" := JObj(EncodeDetails(s.details))]
  }

  function EncodeResponse(r: GetSessionsResponse, format: Timestamp -> string): Object {
    map["PageNumber" := JInt(r.pageNumber), "PagesCount" := JInt(r.pagesCount),
        "RegistrationId" := JInt(r.registrationId),
        "Sessions" := JArr(EncodeSessions(r.sessions, format))]
  }

  function EncodeSpeakers(ss: seq<Speaker>): seq<Json> {
    seq(|ss|, i requires 0 <= i < |ss| => JObj(EncodeSpeaker(ss[i])))
  }

  function EncodeSessions(ss: seq<Session>, format: Timestamp -> string): seq<Json> {
    seq(|ss|, i requires 0 <= i < |ss| => JObj(EncodeSession(ss[i], format)))
  }

  /**
    The records a decoder can produce from an encoding: the constant fields hold their
    constants, and the date formatter and parser agree on every start time.
   */
  predicate ScheduleRoundTrips(s: Schedule, parse: DateParser, format: Timestamp -> string) {
    !s.isToday && parse(format(s.startDateTime)) == Some(s.startDateTime)
  }

  predicate SessionRoundTrips(s: Session, parse: DateParser, format: Timestamp -> string) {
    && !s.isCommonSession
    && ScheduleRoundTrips(s.schedule, parse, format)
    && forall i :: 0 <= i < |s.speakers| ==> s.speakers[i].twitterUsername == ""
  }

  lemma SpeakerRoundTrip(s: Speaker)
    requires s.twitterUsername == ""
    ensures DecodeSpeaker(EncodeSpeaker(s)) == s
  {
  }

  lemma ScheduleRoundTrip(s: Schedule, parse: DateParser, format: Timestamp -> string)
    requires ScheduleRoundTrips(s, parse, format)
    ensures DecodeSchedule(EncodeSchedule(s, format), parse) == s
  {
  }

  lemma DetailsRoundTrip(s: SessionDetails)
    ensures DecodeDetails(EncodeDetails(s)) == s
  {
  }

  /** The wire fields a session is read from, as `EncodeSession` writes them. */
  predicate EncodesSession(d: Object, s: Session, format: Timestamp -> string) {
    && "EventSessionId" in d && d["EventSessionId"] == JInt(s.eventSessionId)
    && "EventSessionRegistrationId" in d && d["EventSessionRegistrationId"] == JInt(s.eventSessionRegistrationId)
    && "SessionId" in d && d["SessionId"] == JInt(s.sessionId)
    && "Name" in d && d["Name"] == JStr(s.name)
    && "Speakers" in d && d["Speakers"] == JArr(EncodeSpeakers(s.speakers))
    && "Schedule" in d && d["Schedule"] == JObj(EncodeSchedule(s.schedule, format))
    && "Description" in d && d["Description"] == JStr(s.description)
    && "Details" in d && d["Details"] == JObj(EncodeDetails(s.details))
  }

  lemma EncodeSessionFields(s: Session, format: Timestamp -> string)
    ensures EncodesSession(EncodeSession(s, format), s, format)
  {
  }

  lemma DecodeEncodedSession(d: Object, s: Session, parse: DateParser, format: Timestamp -> string)
    requires EncodesSession(d, s, format)
    requires SessionRoundTrips(s, parse, format)
    ensures DecodeSession(d, parse) == s
  {
    var a := d["Speakers"];
    assert HasObjectArray(d, "Speakers");
    var r := DecodeSession(d, parse);
    forall i | 0 <= i < |s.speakers|
      ensures r.speakers[i] == s.speakers[i]
    {
      assert a.items[i].fields == EncodeSpeaker(s.speakers[i]);
      SpeakerRoundTrip(s.speakers[i]);
    }
    ScheduleRoundTrip(s.schedule, parse, format);
    DetailsRoundTrip(s.details);
  }

  lemma SessionRoundTrip(s: Session, parse: DateParser, format: Timestamp -> string)
    requires SessionRoundTrips(s, parse, format)
    ensures DecodeSession(EncodeSession(s, format), parse) == s
  {
    EncodeSessionFields(s, format);
    DecodeEncodedSession(EncodeSession(s, format), s, parse, format);
  }

  lemma ResponseRoundTrip(r: GetSessionsResponse, parse: DateParser, format: Timestamp -> string)
    requires forall i :: 0 <= i < |r.sessions| ==> SessionRoundTrips(r.sessions[i], parse, format)
    ensures DecodeResponse(EncodeResponse(r, format), parse) == r
  {
    var d := EncodeResponse(r, format);
    assert d["PageNumber"] == JInt(r.pageNumber) && d["PagesCount"] == JInt(r.pagesCount);
    assert d["RegistrationId"] == JInt(r.registrationId) && d["Sessions"] == JArr(EncodeSessions(r.sessions, format));
    DecodeEncodedResponse(d, r, parse, format);
  }

  lemma DecodeEncodedResponse(d: Object, r: GetSessionsResponse, parse: DateParser, format: Timestamp -> string)
    requires forall i :: 0 <= i < |r.sessions| ==> SessionRoundTrips(r.sessions[i], parse, format)
    requires "PageNumber" in d && d["PageNumber"] == JInt(r.pageNumber)
    requires "PagesCount" in d && d["PagesCount"] == JInt(r.pagesCount)
    requires "RegistrationId" in d && d["RegistrationId"] == JInt(r.registrationId)
    requires "Sessions" in d && d["Sessions"] == JArr(EncodeSessions(r.sessions, format))
    ensures DecodeResponse(d, parse) == r
  {
    assert HasObjectArray(d, "Sessions");
    var x := DecodeResponse(d, parse);
    forall i | 0 <= i < |r.sessions|
      ensures x.sessions[i] == r.sessions[i]
    {
      assert d["Sessions"].items[i].fields == EncodeSession(r.sessions[i], format);
      SessionRoundTrip(r.sessions[i], parse, format);
    }
  }
}
