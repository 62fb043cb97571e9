/**
  The consultation controller of the backend: three request handlers, each a
  pure function from what the handler reads (the request, and the outcome of
  its one database call) to the HTTP response it sends.

  The database is not modelled: a query is given as its outcome (`Query`), and
  an insert as whether it succeeded, the response then carrying the record
  that was handed to the insert.
 */
module ConsultationController {
  import opened JsValues

  // ---------------------------------------------------------------- responses

  const ImageRequired := "Image is required"
  const FieldsRequired := "Reason and description are required"
  const ConsultationRequested := "Consultation requested"
  const RequestFailed := "Failed to request consultation"
  const NoConsultations := "No consultations"
  const StatusFailed := "Failed"
  const DoctorsFailed := "Failed to find doctors"

  /** The record `requestConsultation` hands to the database insert. */
  datatype NewConsultation = NewConsultation(
    patientId: Nullable, doctorId: Nullable, dateTime: Nullable,
    reason: Nullable, description: Nullable, imageUrl: string)

  /** One entry of the doctor list. */
  datatype DoctorView = DoctorView(id: int, name: string, specialization: Nullable)

  /** One entry of a patient's consultation status list. */
  datatype ConsultationView = ConsultationView(
    id: int, doctorId: int, dateTime: Nullable, status: string,
    doctorName: string, specialty: Nullable)

  /** The JSON bodies the handlers send. */
  datatype Payload =
    | ErrorMessage(error: string)
    | Message(message: string)
    | Requested(message: string, consultation: NewConsultation)
    | Doctors(doctors: seq<DoctorView>)
    | Consultations(consultations: seq<ConsultationView>)

  datatype Response = Response(status: int, payload: Payload)

  /** The outcome of a database read: its rows, or a thrown error. */
  datatype Query<T> = Found(rows: seq<T>) | StoreError

  // ---------------------------------------------------------------- joined rows

  /** A joined `User` row; only `username` is selected. */
  datatype UserRow = UserRow(username: string)

  /** A `Doctor` row with its `User` joined; the join is empty when no user matches. */
  datatype DoctorRow = DoctorRow(
    id: int, specialization: Nullable, contactDetails: Nullable, user: Option<UserRow>)

  /** The `Doctor` joined to a consultation (only `specialization` and its `User`). */
  datatype DoctorJoin = DoctorJoin(specialization: Nullable, user: Option<UserRow>)

  /** A `Consultation` row with its doctor joined. */
  datatype ConsultationRow = ConsultationRow(
    id: int, doctorId: int, dateTime: Nullable, status: string, doctor: Option<DoctorJoin>)

  // ---------------------------------------------------------------- getDoctors

  /**
    The `.map` of `getDoctors`. Reading `doctor.User.username` throws when the
    user join is empty, so the whole projection fails (`None`) as soon as one
    row lacks it.
   */
  function FormatDoctors(rows: seq<DoctorRow>): (r: Option<seq<DoctorView>>)
    ensures r.Some? <==> forall i :: 0 <= i < |rows| ==> rows[i].user.Some?
    ensures r.Some? ==> |r.value| == |rows|
    ensures r.Some? ==> forall i :: 0 <= i < |rows| ==>
      && r.value[i].id == rows[i].id
      && r.value[i].name == rows[i].user.value.username
      && r.value[i].specialization == rows[i].specialization
  {
    if rows == [] then Some([])
    else if rows[0].user.None? then None
    else
      var rest := FormatDoctors(rows[1..]);
      if rest.None? then None
      else
        var d := rows[0];
        Some([DoctorView(d.id, d.user.value.username, d.specialization)] + rest.value)
  }

  /** `getDoctors`: the doctor list, or 500 when the query or the projection throws. */
  function GetDoctors(query: Query<DoctorRow>): (r: Response)
    ensures r.status == 200 || r == Response(500, ErrorMessage(DoctorsFailed))
    ensures r.status == 200 <==> query.Found? && forall i :: 0 <= i < |query.rows| ==> query.rows[i].user.Some?
    ensures r.status == 200 ==> r.payload.Doctors? && |r.payload.doctors| == |query.rows|
    ensures r.status == 200 ==> forall i :: 0 <= i < |query.rows| ==>
      && r.payload.doctors[i].id == query.rows[i].id
      && r.payload.doctors[i].name == query.rows[i].user.value.username
      && r.payload.doctors[i].specialization == query.rows[i].specialization
  {
    if query.StoreError? then Response(500, ErrorMessage(DoctorsFailed))
    else
      match FormatDoctors(query.rows)
      case None => Response(500, ErrorMessage(DoctorsFailed))
      case Some(doctors) => Response(200, Doctors(doctors))
  }

  /** Two doctor rows that differ at most in `contactDetails`. */
  predicate SameButContact(a: DoctorRow, b: DoctorRow) {
    a.(contactDetails := b.contactDetails) == b
  }

  /** `contactDetails` is selected from the database but never reaches the response. */
  lemma {:induction false} ContactDetailsNeverReturned(xs: seq<DoctorRow>, ys: seq<DoctorRow>)
    requires |xs| == |ys|
    requires forall i :: 0 <= i < |xs| ==> SameButContact(xs[i], ys[i])
    ensures FormatDoctors(xs) == FormatDoctors(ys)
    ensures GetDoctors(Found(xs)) == GetDoctors(Found(ys))
  {
    if xs != [] {
      assert SameButContact(xs[0], ys[0]);
      ContactDetailsNeverReturned(xs[1..], ys[1..]);
    }
  }

  // ---------------------------------------------------------------- requestConsultation

  /** The multipart form fields of the request body. */
  datatype ConsultationBody = ConsultationBody(
    patientId: Nullable, doctorId: Nullable, dateTime: Nullable,
    reason: Nullable, description: Nullable)

  /** The uploaded image, as the upload middleware describes it. */
  datatype UploadedFile = UploadedFile(path: string)

  /**
    What `requestConsultation` reads from the request: the body (absent when no
    body parser ran, in which case destructuring it throws) and the uploaded file.
   */
  datatype ConsultationForm = ConsultationForm(body: Option<ConsultationBody>, file: Option<UploadedFile>)

  /** The two validation checks, in their order: an image, then a truthy reason and description. */
  predicate PassesValidation(form: ConsultationForm) {
    && form.file.Some?
    && form.body.Some?
    && Truthy(form.body.value.reason)
    && Truthy(form.body.value.description)
  }

  /** The record built from an accepted form: the body's fields unchanged plus the file path. */
  function RecordOf(form: ConsultationForm): (c: NewConsultation)
    requires form.body.Some? && form.file.Some?
    ensures c.imageUrl == form.file.value.path
    ensures c.reason == form.body.value.reason && c.description == form.body.value.description
    ensures c.patientId == form.body.value.patientId && c.doctorId == form.body.value.doctorId
    ensures c.dateTime == form.body.value.dateTime
  {
    var b := form.body.value;
    NewConsultation(b.patientId, b.doctorId, b.dateTime, b.reason, b.description, form.file.value.path)
  }

  /**
    `requestConsultation`: validate, then insert. `inserted` is the outcome of
    the insert, which only happens when validation passes.
   */
  function RequestConsultation(form: ConsultationForm, inserted: bool): (r: Response)
    // the body is destructured before any check: without one the handler throws
    ensures form.body.None? ==> r == Response(500, ErrorMessage(RequestFailed))
    // the image check comes first, whatever the other fields hold
    ensures form.body.Some? && form.file.None? ==> r == Response(400, ErrorMessage(ImageRequired))
    // then reason and description must both be truthy
    ensures form.body.Some? && form.file.Some? && !PassesValidation(form) ==>
      r == Response(400, ErrorMessage(FieldsRequired))
    // the insert decides the rest
    ensures PassesValidation(form) && !inserted ==> r == Response(500, ErrorMessage(RequestFailed))
    ensures r.status == 201 <==> PassesValidation(form) && inserted
    ensures r.status == 201 ==> r.payload == Requested(ConsultationRequested, RecordOf(form))
  {
    if form.body.None? then Response(500, ErrorMessage(RequestFailed))
    else if form.file.None? then Response(400, ErrorMessage(ImageRequired))
    else
      var b := form.body.value;
      if !Truthy(b.reason) || !Truthy(b.description) then Response(400, ErrorMessage(FieldsRequired))
      else if !inserted then Response(500, ErrorMessage(RequestFailed))
      else Response(201, Requested(ConsultationRequested, RecordOf(form)))
  }

  /** Patient, doctor and time are never checked: two forms alike in file, reason and description get the same verdict. */
  lemma AcceptanceIgnoresPartiesAndTime(f: ConsultationForm, g: ConsultationForm, inserted: bool)
    requires f.body.Some? && g.body.Some?
    requires f.file == g.file
    requires f.body.value.reason == g.body.value.reason
    requires f.body.value.description == g.body.value.description
    ensures PassesValidation(f) == PassesValidation(g)
    ensures RequestConsultation(f, inserted).status == RequestConsultation(g, inserted).status
    ensures RequestConsultation(f, inserted).status != 201 ==>
      RequestConsultation(f, inserted) == RequestConsultation(g, inserted)
  {
  }

  // ---------------------------------------------------------------- getConsultationStatus

  /** A consultation row whose doctor and the doctor's user are both joined. */
  predicate FullyJoined(row: ConsultationRow) {
    row.doctor.Some? && row.doctor.value.user.Some?
  }

  /**
    The `.map` of `getConsultationStatus`. Reading `Doctor.User.username`
    throws when either join is empty, failing the whole projection.
   */
  function FormatConsultations(rows: seq<ConsultationRow>): (r: Option<seq<ConsultationView>>)
    ensures r.Some? <==> forall i :: 0 <= i < |rows| ==> FullyJoined(rows[i])
    ensures r.Some? ==> |r.value| == |rows|
    ensures r.Some? ==> forall i :: 0 <= i < |rows| ==>
      && r.value[i].id == rows[i].id
      && r.value[i].doctorId == rows[i].doctorId
      && r.value[i].dateTime == rows[i].dateTime
      && r.value[i].status == rows[i].status
      && r.value[i].doctorName == rows[i].doctor.value.user.value.username
      && r.value[i].specialty == rows[i].doctor.value.specialization
  {
    if rows == [] then Some([])
    else if !FullyJoined(rows[0]) then None
    else
      var rest := FormatConsultations(rows[1..]);
      if rest.None? then None
      else
        var c := rows[0];
        var d := c.doctor.value;
        Some([ConsultationView(c.id, c.doctorId, c.dateTime, c.status, d.user.value.username, d.specialization)]
             + rest.value)
  }

  /** `getConsultationStatus`: 404 on no rows, else the projected list; 500 on any throw. */
  function GetConsultationStatus(query: Query<ConsultationRow>): (r: Response)
    ensures query.StoreError? ==> r == Response(500, ErrorMessage(StatusFailed))
    ensures query.Found? && query.rows == [] ==> r == Response(404, Message(NoConsultations))
    ensures r.status == 200 <==>
      query.Found? && query.rows != [] && forall i :: 0 <= i < |query.rows| ==> FullyJoined(query.rows[i])
    ensures r.status != 200 ==> r.payload.ErrorMessage? || r.payload.Message?
    // a row without its doctor or user makes the projection throw: 500, never a partial list
    ensures query.Found? && query.rows != [] && r.status != 200 ==> r == Response(500, ErrorMessage(StatusFailed))
    ensures r.status == 200 ==> r.payload.Consultations? && |r.payload.consultations| == |query.rows|
    ensures r.status == 200 ==> forall i :: 0 <= i < |query.rows| ==>
      && r.payload.consultations[i].id == query.rows[i].id
      && r.payload.consultations[i].doctorId == query.rows[i].doctorId
      && r.payload.consultations[i].dateTime == query.rows[i].dateTime
      && r.payload.consultations[i].status == query.rows[i].status
      && r.payload.consultations[i].doctorName == query.rows[i].doctor.value.user.value.username
      && r.payload.consultations[i].specialty == query.rows[i].doctor.value.specialization
  {
    if query.StoreError? then Response(500, ErrorMessage(StatusFailed))
    else if |query.rows| == 0 then Response(404, Message(NoConsultations))
    else
      match FormatConsultations(query.rows)
      case None => Response(500, ErrorMessage(StatusFailed))
      case Some(items) => Response(200, Consultations(items))
  }

  /**
    The status list is order-preserving: it lists the same consultation ids, in
    the same order, as the query. This is the sequence-level corollary of the
    per-index postconditions of `FormatConsultations`.
   */
  lemma {:induction false} StatusListKeepsOrder(rows: seq<ConsultationRow>)
    requires forall i :: 0 <= i < |rows| ==> FullyJoined(rows[i])
    ensures FormatConsultations(rows).Some?
    ensures Ids(FormatConsultations(rows).value) == RowIds(rows)
  {
    if rows != [] {
      StatusListKeepsOrder(rows[1..]);
      var r := FormatConsultations(rows).value;
      assert r == [r[0]] + FormatConsultations(rows[1..]).value;
    }
  }

  function Ids(vs: seq<ConsultationView>): seq<int> {
    if vs == [] then [] else [vs[0].id] + Ids(vs[1..])
  }

  function RowIds(rows: seq<ConsultationRow>): seq<int> {
    if rows == [] then [] else [rows[0].id] + RowIds(rows[1..])
  }
}
