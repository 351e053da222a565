/** The values the dialogue policy works on: the persona record (a JSON
    document in the source, whose every field may be missing), the
    caller-owned session state, chat messages and the result of one turn. */
module Domain {
  import opened Text

  /** persona["identity"] */
  datatype Identity = Identity(
    preferredName: Option<string>,
    pronouns: Option<string>,
    age: Option<string>,
    sexAtBirth: Option<string>,
    genderIdentity: Option<string>,
    language: Option<string>,
    interpreterNeeded: Option<bool>)

  /** persona["hpi"]: history of present illness. */
  datatype Hpi = Hpi(
    onset: Option<string>,
    mechanism: Option<string>,
    location: Option<string>,
    severityNrs: Option<int>,
    aggravators: Option<seq<string>>,
    easers: Option<seq<string>>,
    pattern24h: Option<string>,
    redFlags: seq<string>)

  /** persona["context"] */
  datatype Context = Context(
    workStatus: Option<string>,
    city: Option<string>,
    ruralUrban: Option<string>,
    sportParticipation: Option<string>)

  /** persona["sdoh"]: social determinants of health. */
  datatype Sdoh = Sdoh(transport: Option<string>)

  /** persona["communication_profile"] */
  datatype CommunicationProfile = CommunicationProfile(
    tone: Option<string>,
    talkativeness: Option<string>,
    healthLiteracy: Option<string>)

  /** persona["exam_script"]; the two dictionaries keep their key order. */
  datatype ExamScript = ExamScript(
    observation: Option<string>,
    arom: seq<(string, string)>,
    specialTests: seq<(string, string)>,
    neurovascular: Option<string>)

  /** A persona; a None section is a section the JSON document lacks. */
  datatype Persona = Persona(
    patientId: Option<string>,
    identity: Option<Identity>,
    condition: Option<string>,
    chiefComplaint: Option<string>,
    hpi: Option<Hpi>,
    goals: seq<string>,
    context: Option<Context>,
    sdoh: Option<Sdoh>,
    communicationProfile: Option<CommunicationProfile>,
    examScript: Option<ExamScript>)

  /** What `.get(section, {})` sees when a section is missing. */
  const NO_IDENTITY := Identity(None, None, None, None, None, None, None)
  const NO_HPI := Hpi(None, None, None, None, None, None, None, [])
  const NO_CONTEXT := Context(None, None, None, None)
  const NO_SDOH := Sdoh(None)
  const NO_PROFILE := CommunicationProfile(None, None, None)
  const NO_EXAM := ExamScript(None, [], [], None)

  /** The session state dictionary: the two flags the policy reads, and
      every other key, which the policy copies through untouched. */
  datatype State = State(sharedCc: bool, interpreterProvided: bool, extra: map<string, string>)

  /** A chat message {"role": ..., "content": ...}. */
  datatype Message = Message(role: string, content: string)

  /** The (reply, state, tags) triple a turn returns. */
  datatype Turn = Turn(reply: string, state: State, tags: seq<string>)

  /** A result, or the KeyError raised by indexing a missing section. */
  datatype Outcome<+T> = Ok(value: T) | KeyError(key: string)
}
