/** Admin endpoints of checador/api/admin.py: the session token store, the
    enrollment start with its duplicate-code check, the capture decision
    chain that gates a template on quality, user listing and deactivation.
    The database is a value passed in and returned; the camera, the
    extractor, the password check and the token generator are oracles. */
module Admin {
  import opened Options
  import opened Text
  import opened Store
  import opened Config
  import Fingerprint
  import Camera

  type Token = string

  /** The two tables the endpoints touch, users in listing order. */
  datatype Db = Db(users: seq<User>, templates: seq<Template>)

  /** `HTTPException(401)`, raised by every protected endpoint on an unknown
      token and by `login` on a wrong password. */
  datatype HttpError = Unauthorized

  // ---------------------------------------------------------------------
  // Token store

  /** `verify_token`: membership in `active_tokens`. */
  predicate VerifyToken(tokens: set<Token>, token: Token) {
    token in tokens
  }

  datatype LoginOutcome = LoginOutcome(tokens: set<Token>, response: Result<Token, HttpError>)

  /** `login`: a correct password stores and returns the newly generated
      token; a wrong one raises 401 and stores nothing. */
  function Login(tokens: set<Token>, passwordOk: bool, newToken: Token): (r: LoginOutcome)
    ensures passwordOk ==> r.tokens == tokens + {newToken} && r.response == Success(newToken)
    ensures !passwordOk ==> r.tokens == tokens && r.response == Failure(Unauthorized)
    ensures VerifyToken(r.tokens, newToken) <==> passwordOk || newToken in tokens
  {
    if passwordOk then LoginOutcome(tokens + {newToken}, Success(newToken))
    else LoginOutcome(tokens, Failure(Unauthorized))
  }

  /** `logout`: the token no longer verifies, every other token is kept,
      and the answer is always `{"success": True}`. */
  function Logout(tokens: set<Token>, token: Token): (r: (set<Token>, bool))
    ensures !VerifyToken(r.0, token)
    ensures forall t :: t != token ==> (VerifyToken(r.0, t) <==> VerifyToken(tokens, t))
    ensures token !in tokens ==> r.0 == tokens
    ensures r.1
  {
    (if token in tokens then tokens - {token} else tokens, true)
  }

  /** A token obtained from a successful login verifies until it is logged
      out, and not after. */
  lemma LoginLogoutRoundTrip(tokens: set<Token>, newToken: Token)
    requires newToken !in tokens
    ensures VerifyToken(Login(tokens, true, newToken).tokens, newToken)
    ensures Logout(Login(tokens, true, newToken).tokens, newToken).0 == tokens
  {
  }

  // ---------------------------------------------------------------------
  // Users and templates

  /** `db.get_user`: the first user row with that id. */
  function GetUser(users: seq<User>, id: UserId): (r: Option<User>)
    ensures r.Some? ==> r.value in users && r.value.id == id
    ensures r.None? <==> forall i :: 0 <= i < |users| ==> users[i].id != id
    decreases |users|
  {
    if |users| == 0 then None
    else if users[0].id == id then Some(users[0])
    else GetUser(users[1..], id)
  }

  /** `db.get_user_by_code` found a row. */
  predicate CodeTaken(users: seq<User>, code: string) {
    exists i :: 0 <= i < |users| && users[i].employeeCode == code
  }

  /** No two users share an employee code. */
  predicate UniqueCodes(users: seq<User>) {
    forall i, j :: 0 <= i < j < |users| ==> users[i].employeeCode != users[j].employeeCode
  }

  /** Number of templates owned by `id`: `len(db.get_user_templates(id))`. */
  function TemplateCount(templates: seq<Template>, id: UserId): (n: nat)
    ensures n <= |templates|
    decreases |templates|
  {
    if |templates| == 0 then 0
    else TemplateCount(templates[..|templates| - 1], id) + (if templates[|templates| - 1].userId == id then 1 else 0)
  }

  /** Appending a template raises its owner's count by one and leaves every
      other user's count alone. */
  lemma {:induction false} TemplateCountAppend(templates: seq<Template>, t: Template, id: UserId)
    ensures TemplateCount(templates + [t], id) == TemplateCount(templates, id) + (if t.userId == id then 1 else 0)
  {
    assert (templates + [t])[..|templates|] == templates;
  }

  // ---------------------------------------------------------------------
  // Enrollment start

  datatype EnrollResponse = EnrollResponse(success: bool, userId: Option<UserId>, message: string)
  datatype EnrollOutcome = EnrollOutcome(db: Db, response: Result<EnrollResponse, HttpError>)

  /** `start_enrollment`: after the token check, refuses an employee code
      that already exists; otherwise creates an active user with the id the
      database assigns (`newId`). `createError` is the message of an
      exception raised by the database. */
  function StartEnrollment(db: Db, tokens: set<Token>, token: Token, name: string, code: string,
                           newId: UserId, createError: Option<string>): (r: EnrollOutcome)
    ensures !VerifyToken(tokens, token) ==> r == EnrollOutcome(db, Failure(Unauthorized))
    ensures VerifyToken(tokens, token) && CodeTaken(db.users, code) ==>
      r.db == db && r.response.Success? && !r.response.value.success
    ensures r.response.Success? && r.response.value.success <==>
      VerifyToken(tokens, token) && !CodeTaken(db.users, code) && createError.None?
    ensures r.response.Success? && r.response.value.success ==>
      r.db == Db(db.users + [User(newId, name, code, true)], db.templates) &&
      r.response.value.userId == Some(newId)
    ensures !(r.response.Success? && r.response.value.success) ==> r.db == db
    ensures UniqueCodes(db.users) ==> UniqueCodes(r.db.users)
  {
    if !VerifyToken(tokens, token) then EnrollOutcome(db, Failure(Unauthorized))
    else if CodeTaken(db.users, code) then
      EnrollOutcome(db, Success(EnrollResponse(false, None, "Employee code " + code + " already exists")))
    else if createError.Some? then
      EnrollOutcome(db, Success(EnrollResponse(false, None, createError.value)))
    else
      EnrollOutcome(Db(db.users + [User(newId, name, code, true)], db.templates),
                    Success(EnrollResponse(true, Some(newId), "User created, ready for fingerprint capture")))
  }

  // ---------------------------------------------------------------------
  // Sample capture

  datatype CaptureResponse = CaptureResponse(success: bool, quality: int, sampleNumber: int, message: string)
  datatype CaptureOutcome = CaptureOutcome(db: Db, response: Result<CaptureResponse, HttpError>)

  /** `camera.capture_fingerprint`'s pair `(success, error_message)`. */
  datatype CameraCapture = CameraCapture(success: bool, error: Option<string>)

  /** Python's `error or "Capture failed"`: an absent or empty message falls
      back to the default. */
  function CaptureFailureMessage(error: Option<string>): string {
    if error.Some? && error.value != "" then error.value else "Capture failed"
  }

  function LowQualityMessage(quality: int, minimum: int): string {
    "Low quality fingerprint (score=" + IntToString(quality) + ", minimum=" + IntToString(minimum) + ")"
  }

  /** `str(xyt_path)`; `str(None)` is `"None"`. */
  function PathText(p: Option<string>): string {
    match p
    case Some(s) => s
    case None => "None"
  }

  /** The condition under which `capture_sample` stores a template: valid
      token, known user, successful capture, successful extraction, and a
      quality of at least `min_quality_score`, with no storage error. */
  predicate CaptureAccepted(db: Db, tokens: set<Token>, token: Token, userId: UserId, minQuality: int,
                            capture: CameraCapture, extraction: Fingerprint.Extraction,
                            storeError: Option<string>) {
    && VerifyToken(tokens, token)
    && GetUser(db.users, userId).Some?
    && capture.success
    && extraction.success
    && extraction.quality >= minQuality
    && storeError.None?
  }

  /** `capture_sample`: a guarded chain. Each failure answers with
      `success=False` and leaves storage unchanged; only the low-quality
      answer reports the extracted quality, the others report 0. Every
      answer echoes `sample_number`. `storeError` is the message of an
      exception raised while storing. */
  function CaptureSample(db: Db, tokens: set<Token>, token: Token, minQuality: int,
                         userId: UserId, sampleNumber: int, capture: CameraCapture,
                         extraction: Fingerprint.Extraction, storeError: Option<string>): (r: CaptureOutcome)
    ensures !VerifyToken(tokens, token) ==> r == CaptureOutcome(db, Failure(Unauthorized))
    ensures VerifyToken(tokens, token) ==> r.response.Success? && r.response.value.sampleNumber == sampleNumber
    ensures r.response.Success? && r.response.value.success <==>
      CaptureAccepted(db, tokens, token, userId, minQuality, capture, extraction, storeError)
    ensures CaptureAccepted(db, tokens, token, userId, minQuality, capture, extraction, storeError) ==>
      r.db == Db(db.users, db.templates + [Template(userId, PathText(extraction.xytPath), extraction.quality)]) &&
      r.response.value.quality == extraction.quality
    ensures !CaptureAccepted(db, tokens, token, userId, minQuality, capture, extraction, storeError) ==> r.db == db
    ensures r.db.users == db.users
    ensures r.response.Success? && !r.response.value.success && r.response.value.quality != 0 ==>
      r.response.value.quality == extraction.quality && extraction.quality < minQuality
    ensures VerifyToken(tokens, token) && (GetUser(db.users, userId).None? || !capture.success || !extraction.success) ==>
      r.response.value.quality == 0
    ensures VerifyToken(tokens, token) && GetUser(db.users, userId).Some? && capture.success && extraction.success
            && extraction.quality < minQuality ==>
      r.response.value == CaptureResponse(false, extraction.quality, sampleNumber,
                                          LowQualityMessage(extraction.quality, minQuality))
  {
    if !VerifyToken(tokens, token) then CaptureOutcome(db, Failure(Unauthorized))
    else
      match GetUser(db.users, userId)
      case None => CaptureOutcome(db, Success(CaptureResponse(false, 0, sampleNumber, "User not found")))
      case Some(user) =>
        if !capture.success then
          CaptureOutcome(db, Success(CaptureResponse(false, 0, sampleNumber, CaptureFailureMessage(capture.error))))
        else if !extraction.success then
          CaptureOutcome(db, Success(CaptureResponse(false, 0, sampleNumber, "Feature extraction failed")))
        else if extraction.quality < minQuality then
          CaptureOutcome(db, Success(CaptureResponse(false, extraction.quality, sampleNumber,
                                                     LowQualityMessage(extraction.quality, minQuality))))
        else if storeError.Some? then
          CaptureOutcome(db, Success(CaptureResponse(false, 0, sampleNumber, storeError.value)))
        else
          CaptureOutcome(Db(db.users, db.templates + [Template(user.id, PathText(extraction.xytPath), extraction.quality)]),
                         Success(CaptureResponse(true, extraction.quality, sampleNumber, "Sample captured successfully")))
  }

  /** A capture raises the template count of the captured user by one when
      accepted, and no user's count otherwise. */
  lemma CaptureCountsOneTemplate(db: Db, tokens: set<Token>, token: Token, minQuality: int,
                                 userId: UserId, sampleNumber: int, capture: CameraCapture,
                                 extraction: Fingerprint.Extraction, storeError: Option<string>, id: UserId)
    ensures var r := CaptureSample(db, tokens, token, minQuality, userId, sampleNumber, capture, extraction, storeError);
      TemplateCount(r.db.templates, id) == TemplateCount(db.templates, id) +
        (if id == userId && CaptureAccepted(db, tokens, token, userId, minQuality, capture, extraction, storeError)
         then 1 else 0)
  {
    if CaptureAccepted(db, tokens, token, userId, minQuality, capture, extraction, storeError) {
      TemplateCountAppend(db.templates, Template(userId, PathText(extraction.xytPath), extraction.quality), id);
    }
  }

  /** Extraction through mindtct feeds the gate: a sample whose quality is
      exactly `min_quality_score` is stored, one a point below is not. */
  lemma QualityBoundaryAccepted(db: Db, tokens: set<Token>, token: Token, userId: UserId,
                                sampleNumber: int, xytPath: string, lines: seq<string>)
    requires VerifyToken(tokens, token) && GetUser(db.users, userId).Some?
    ensures var e := Fingerprint.ExtractFeatures(xytPath, Fingerprint.Exited(0, Fingerprint.Created(Some(lines))));
      var q := e.quality;
      CaptureSample(db, tokens, token, q, userId, sampleNumber, CameraCapture(true, None), e, None).response.value.success
      && !CaptureSample(db, tokens, token, q + 1, userId, sampleNumber, CameraCapture(true, None), e, None).response.value.success
  {
  }

  /** When the camera yields no frame, `capture_fingerprint` fails with its
      message and `capture_sample` (at the default quality gate) passes that
      message on, reports quality 0 and stores nothing. */
  lemma NoFrameStoresNothing(db: Db, tokens: set<Token>, token: Token, userId: UserId, sampleNumber: int,
                             save: Camera.SaveOutcome, extraction: Fingerprint.Extraction,
                             storeError: Option<string>)
    requires VerifyToken(tokens, token) && GetUser(db.users, userId).Some?
    ensures var c := Camera.CaptureFingerprint<int>(None, save);
      var r := CaptureSample(db, tokens, token, DefaultFingerprint.minQualityScore, userId, sampleNumber,
                             CameraCapture(c.0, c.1), extraction, storeError);
      r.db == db &&
      r.response == Success(CaptureResponse(false, 0, sampleNumber, "Failed to capture frame from camera"))
  {
  }

  // ---------------------------------------------------------------------
  // Listing and deactivation

  datatype UserSummary = UserSummary(id: UserId, name: string, employeeCode: string, active: bool, templateCount: nat)

  function Summaries(users: seq<User>, templates: seq<Template>): (r: seq<UserSummary>)
    ensures |r| == |users|
    ensures forall i :: 0 <= i < |users| ==>
      r[i] == UserSummary(users[i].id, users[i].name, users[i].employeeCode, users[i].active,
                          TemplateCount(templates, users[i].id))
  {
    seq(|users|, i requires 0 <= i < |users| =>
      UserSummary(users[i].id, users[i].name, users[i].employeeCode, users[i].active,
                  TemplateCount(templates, users[i].id)))
  }

  /** `list_users`: one summary per user, active or not, in listing order,
      with the number of templates that user owns. */
  function ListUsers(db: Db, tokens: set<Token>, token: Token): (r: Result<seq<UserSummary>, HttpError>)
    ensures !VerifyToken(tokens, token) ==> r == Failure(Unauthorized)
    ensures VerifyToken(tokens, token) ==> r.Success? && |r.value| == |db.users|
    ensures VerifyToken(tokens, token) ==> forall i :: 0 <= i < |db.users| ==>
      r.value[i].id == db.users[i].id && r.value[i].active == db.users[i].active &&
      r.value[i].templateCount == TemplateCount(db.templates, db.users[i].id)
  {
    if !VerifyToken(tokens, token) then Failure(Unauthorized)
    else Success(Summaries(db.users, db.templates))
  }

  /** `deactivate_user`: clears the active flag of that user (a no-op when
      there is none) and answers success; templates are kept. */
  function DeactivateUser(db: Db, tokens: set<Token>, token: Token, userId: UserId): (r: (Db, Result<bool, HttpError>))
    ensures !VerifyToken(tokens, token) ==> r == (db, Failure(Unauthorized))
    ensures VerifyToken(tokens, token) ==> r.1 == Success(true)
    ensures r.0.templates == db.templates && |r.0.users| == |db.users|
    ensures VerifyToken(tokens, token) ==> forall i :: 0 <= i < |db.users| ==>
      r.0.users[i] == if db.users[i].id == userId then db.users[i].(active := false) else db.users[i]
    ensures UniqueCodes(db.users) ==> UniqueCodes(r.0.users)
  {
    if !VerifyToken(tokens, token) then (db, Failure(Unauthorized))
    else
      var users := seq(|db.users|, i requires 0 <= i < |db.users| =>
        if db.users[i].id == userId then db.users[i].(active := false) else db.users[i]);
      (Db(users, db.templates), Success(true))
  }

  /** Accepting samples never changes the users table, so an operation
      sequence of enrollment starts and captures keeps codes unique. */
  lemma EnrollThenCaptureKeepsCodesUnique(db: Db, tokens: set<Token>, token: Token, name: string, code: string,
                                          newId: UserId, minQuality: int, sampleNumber: int,
                                          capture: CameraCapture, extraction: Fingerprint.Extraction)
    requires UniqueCodes(db.users)
    ensures var e := StartEnrollment(db, tokens, token, name, code, newId, None);
      var c := CaptureSample(e.db, tokens, token, minQuality, newId, sampleNumber, capture, extraction, None);
      UniqueCodes(c.db.users)
  {
  }
}
