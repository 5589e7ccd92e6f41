/**
 * The admin dashboard: a baseline (`data`), an editable draft (`editedData`)
 * and the inputs of the "new image" and "new phase" forms. Each handler
 * computes a new draft from the old one by appending, filtering by id or
 * mapping by id; those computations are the functions of this module, and
 * the class `Dashboard` reassigns its fields with them as the handlers do.
 */
module AdminDashboard {
  import opened Wrappers
  import opened Js
  import opened Seqs
  import opened Reforma
  import opened ReformaRoute

  /** The draft the dashboard edits, with camelCase header keys. */
  datatype Draft = Draft(
    id: Uuid,
    title: Val,
    description: Val,
    startDate: Val,
    endDate: Val,
    progressPercentage: Val,
    totalInvested: Val,
    images: seq<Image>,
    phases: seq<Phase>)

  /**
   * What `data` holds: nothing yet, the mapped GET response, or, after a
   * save, the PUT response body exactly as received (it is not mapped).
   */
  datatype Baseline = NoBaseline | FromLoad(draft: Draft) | FromSave(body: Wire)

  // ---------------------------------------------------------------------------
  // Loading and saving

  /** `typeof result.total_invested === "string" ? Number(...) : (total_invested || totalInvested || 0)`. */
  function LoadedInvestment(result: Wire): (r: Val)
    ensures result.total_invested.Str? ==> r == NumberOfString(result.total_invested.s)
    ensures !result.total_invested.Str? && Truthy(result.total_invested) ==> r == result.total_invested
    ensures !result.total_invested.Str? && !Truthy(result.total_invested) ==> r == Or(result.totalInvested, Num(0.0))
  {
    match result.total_invested
    case Str(s) => NumberOfString(s)
    case _ => Or(Or(result.total_invested, result.totalInvested), Num(0.0))
  }

  /**
   * The mapping of a fetched body into a draft, done only when the body has
   * an `id`: snake_case keys win over camelCase ones, progress and investment
   * fall back to 0, and a missing list becomes empty.
   */
  function MapResponse(result: Wire): (r: Option<Draft>)
    ensures result.id.None? <==> r.None?
    ensures r.Some? ==>
      && r.value.id == result.id.value
      && r.value.title == result.title && r.value.description == result.description
      && (Truthy(result.start_date) ==> r.value.startDate == result.start_date)
      && (!Truthy(result.start_date) ==> r.value.startDate == result.startDate)
      && (Truthy(result.end_date) ==> r.value.endDate == result.end_date)
      && (!Truthy(result.end_date) ==> r.value.endDate == result.endDate)
      && (Truthy(result.progress_percentage) ==> r.value.progressPercentage == result.progress_percentage)
      && (!Truthy(result.progress_percentage) && Truthy(result.progressPercentage) ==>
            r.value.progressPercentage == result.progressPercentage)
      && (!Truthy(result.progress_percentage) && !Truthy(result.progressPercentage) ==>
            r.value.progressPercentage == Num(0.0))
      && r.value.totalInvested == LoadedInvestment(result)
      && r.value.images == result.images.GetOr([])
      && r.value.phases == result.phases.GetOr([])
  {
    if result.id.None? then None
    else
      Some(Draft(
        result.id.value, result.title, result.description,
        Or(result.start_date, result.startDate),
        Or(result.end_date, result.endDate),
        Or(Or(result.progress_percentage, result.progressPercentage), Num(0.0)),
        LoadedInvestment(result),
        result.images.GetOr([]),
        result.phases.GetOr([])))
  }

  /**
   * `JSON.stringify(editedData)` as the PUT handler parses it: only camelCase
   * header keys, NaN sent as null, no snake_case keys at all.
   */
  function Serialize(d: Draft): (w: Wire)
    ensures w.id == Some(d.id) && w.images == Some(d.images) && w.phases == Some(d.phases)
    ensures w.title == JsonValue(d.title) && w.description == JsonValue(d.description)
    ensures w.startDate == JsonValue(d.startDate) && w.endDate == JsonValue(d.endDate)
    ensures w.progressPercentage == JsonValue(d.progressPercentage)
    ensures w.totalInvested == JsonValue(d.totalInvested)
    ensures w.start_date == w.end_date == w.progress_percentage == w.total_invested == Undefined
  {
    Wire(Some(d.id), JsonValue(d.title), JsonValue(d.description),
         Undefined, Undefined, Undefined, Undefined,
         JsonValue(d.startDate), JsonValue(d.endDate),
         JsonValue(d.progressPercentage), JsonValue(d.totalInvested),
         Some(d.images), Some(d.phases), Undefined)
  }

  /** A draft whose header values survive JSON unchanged and whose numbers are numbers. */
  predicate RoundTrips(d: Draft) {
    && d.title != NaN && d.description != NaN && d.startDate != NaN && d.endDate != NaN
    && d.progressPercentage.Num? && d.totalInvested.Num?
  }

  /** Mapping what the dashboard sends gives back the draft it sent. */
  lemma DraftRoundTrip(d: Draft)
    requires RoundTrips(d)
    ensures MapResponse(Serialize(d)) == Some(d)
  {
  }

  /**
   * A draft loaded from a successful GET shows the stored header: title and
   * description as stored, the dates and progress when they are truthy
   * (otherwise no date and progress 0, as GET sends no camelCase keys), the
   * normalised investment as it is, and the lists in `created_at` order.
   */
  lemma LoadOfGetReply(db: Db)
    requires GetReply(db, NoGetFaults).status == 200
    ensures var g := GetReply(db, NoGetFaults).body;
      var h := SingleHeader(db.reforma).value;
      var d := MapResponse(g);
      && d.Some? && d.value.id == DefaultReformaId
      && d.value.totalInvested == Num(ParseFloatOrZero(h.total_invested))
      && d.value.title == h.title && d.value.description == h.description
      && (Truthy(h.start_date) ==> d.value.startDate == h.start_date)
      && (!Truthy(h.start_date) ==> d.value.startDate == Undefined)
      && (Truthy(h.end_date) ==> d.value.endDate == h.end_date)
      && (!Truthy(h.end_date) ==> d.value.endDate == Undefined)
      && (Truthy(h.progress_percentage) ==> d.value.progressPercentage == h.progress_percentage)
      && (!Truthy(h.progress_percentage) ==> d.value.progressPercentage == Num(0.0))
      && d.value.phases == PhasesOut(OrderedPhaseRows(db.phases))
      && d.value.images == ImagesOut(OrderedImageRows(db.images))
  {
  }

  /**
   * Because the PUT handler reads snake_case keys only, a dashboard save
   * stores an investment of 0 and keeps the stored dates and progress,
   * whatever the draft holds; title and description are written.
   */
  lemma DashboardSaveHeader(h: HeaderRow, d: Draft, now: string)
    ensures var r := UpdatedHeader(h, Serialize(d), now);
      && r.total_invested == Num(0.0)
      && r.start_date == h.start_date && r.end_date == h.end_date
      && r.progress_percentage == h.progress_percentage
      && (d.title != Undefined ==> r.title == JsonValue(d.title))
      && (d.description != Undefined ==> r.description == JsonValue(d.description))
  {
  }

  /**
   * A whole dashboard save against a store holding the project: the phases
   * and images of the draft are stored, the investment becomes 0 and the
   * dates and progress do not change.
   */
  lemma DashboardSaveThenGet(db: Db, d: Draft, now: string)
    requires DbValid(db) && SingleHeader(db.reforma).Some?
    ensures var g := GetReply(PutSpec(db, Some(Serialize(d)), now, NoPutFaults).db, NoGetFaults);
      var h := SingleHeader(db.reforma).value;
      && g.status == 200
      && g.body.total_invested == Num(0.0)
      && g.body.start_date == h.start_date && g.body.end_date == h.end_date
      && g.body.progress_percentage == h.progress_percentage
      && SamePhasesExceptIds(g.body.phases.value, d.phases)
      && SameImagesExceptIds(g.body.images.value, d.images)
  {
    PutThenGet(db, Serialize(d), now);
  }

  // ---------------------------------------------------------------------------
  // Draft edits

  function KeepImage(id: Uuid): Image -> bool {
    (img: Image) => img.id != id
  }

  function KeepPhase(id: Uuid): Phase -> bool {
    (p: Phase) => p.id != id
  }

  /** `images.filter(img => img.id !== id)`. */
  function RemoveImageById(images: seq<Image>, id: Uuid): (r: seq<Image>)
    ensures forall i :: 0 <= i < |r| ==> r[i].id != id && r[i] in images
    ensures forall i :: 0 <= i < |images| && images[i].id != id ==> images[i] in r
  {
    Filter(images, KeepImage(id))
  }

  /** `phases.filter(phase => phase.id !== id)`. */
  function RemovePhaseById(phases: seq<Phase>, id: Uuid): (r: seq<Phase>)
    ensures forall i :: 0 <= i < |r| ==> r[i].id != id && r[i] in phases
    ensures forall i :: 0 <= i < |phases| && phases[i].id != id ==> phases[i] in r
  {
    Filter(phases, KeepPhase(id))
  }

  /** `phases.map(phase => phase.id === id ? { ...phase, percentage } : phase)`. */
  function SetPhasePercentage(phases: seq<Phase>, id: Uuid, percentage: int): (r: seq<Phase>)
    ensures |r| == |phases|
    ensures forall i :: 0 <= i < |phases| ==>
      && r[i].id == phases[i].id && r[i].name == phases[i].name && r[i].status == phases[i].status
      && r[i].percentage == (if phases[i].id == id then percentage else phases[i].percentage)
  {
    seq(|phases|, i requires 0 <= i < |phases| =>
      if phases[i].id == id then phases[i].(percentage := percentage) else phases[i])
  }

  /** `phases.map(phase => phase.id === id ? { ...phase, status } : phase)`. */
  function SetPhaseStatus(phases: seq<Phase>, id: Uuid, status: string): (r: seq<Phase>)
    ensures |r| == |phases|
    ensures forall i :: 0 <= i < |phases| ==>
      && r[i].id == phases[i].id && r[i].name == phases[i].name && r[i].percentage == phases[i].percentage
      && r[i].status == (if phases[i].id == id then status else phases[i].status)
  {
    seq(|phases|, i requires 0 <= i < |phases| =>
      if phases[i].id == id then phases[i].(status := status) else phases[i])
  }

  predicate ImageIdAbsent(images: seq<Image>, id: Uuid) {
    forall i :: 0 <= i < |images| ==> images[i].id != id
  }

  predicate PhaseIdAbsent(phases: seq<Phase>, id: Uuid) {
    forall i :: 0 <= i < |phases| ==> phases[i].id != id
  }

  /** Removing an id nobody carries changes nothing. */
  lemma RemoveAbsentImage(images: seq<Image>, id: Uuid)
    requires ImageIdAbsent(images, id)
    ensures RemoveImageById(images, id) == images
  {
    FilterKeepsAll(images, KeepImage(id));
  }

  /** Removing a freshly appended image undoes the append. */
  lemma RemoveAppendedImage(images: seq<Image>, img: Image)
    requires ImageIdAbsent(images, img.id)
    ensures RemoveImageById(images + [img], img.id) == images
  {
    FilterConcat(images, [img], KeepImage(img.id));
    RemoveAbsentImage(images, img.id);
    assert images + [] == images;
  }

  /** Removing a freshly appended phase undoes the append. */
  lemma RemoveAppendedPhase(phases: seq<Phase>, p: Phase)
    requires PhaseIdAbsent(phases, p.id)
    ensures RemovePhaseById(phases + [p], p.id) == phases
  {
    FilterConcat(phases, [p], KeepPhase(p.id));
    FilterKeepsAll(phases, KeepPhase(p.id));
    assert phases + [] == phases;
  }

  /** Removing the same id twice is removing it once. */
  lemma RemovePhaseIdempotent(phases: seq<Phase>, id: Uuid)
    ensures RemovePhaseById(RemovePhaseById(phases, id), id) == RemovePhaseById(phases, id)
  {
    FilterFilter(phases, KeepPhase(id), KeepPhase(id));
  }

  /** Removal keeps every other image in its original relative order. */
  lemma RemoveImageKeepsOrder(a: seq<Image>, b: seq<Image>, id: Uuid)
    ensures RemoveImageById(a + b, id) == RemoveImageById(a, id) + RemoveImageById(b, id)
  {
    FilterConcat(a, b, KeepImage(id));
  }

  /** Removal takes out every occurrence of the id and no other image. */
  lemma RemoveImageCount(images: seq<Image>, id: Uuid, img: Image)
    ensures multiset(RemoveImageById(images, id))[img] == if img.id == id then 0 else multiset(images)[img]
  {
    FilterCount(images, KeepImage(id), img);
  }

  /** Removal keeps every other phase in its original relative order. */
  lemma RemovePhaseKeepsOrder(a: seq<Phase>, b: seq<Phase>, id: Uuid)
    ensures RemovePhaseById(a + b, id) == RemovePhaseById(a, id) + RemovePhaseById(b, id)
  {
    FilterConcat(a, b, KeepPhase(id));
  }

  /** Removal takes out every occurrence of the id and no other phase. */
  lemma RemovePhaseCount(phases: seq<Phase>, id: Uuid, p: Phase)
    ensures multiset(RemovePhaseById(phases, id))[p] == if p.id == id then 0 else multiset(phases)[p]
  {
    FilterCount(phases, KeepPhase(id), p);
  }

  /** A later percentage edit of the same phase overrides an earlier one. */
  lemma SetPercentageLastWins(phases: seq<Phase>, id: Uuid, p: int, q: int)
    ensures SetPhasePercentage(SetPhasePercentage(phases, id, p), id, q) == SetPhasePercentage(phases, id, q)
  {
  }

  /** Edits of two different phases do not interfere. */
  lemma SetPercentageCommutes(phases: seq<Phase>, id1: Uuid, id2: Uuid, p: int, q: int)
    requires id1 != id2
    ensures SetPhasePercentage(SetPhasePercentage(phases, id1, p), id2, q)
         == SetPhasePercentage(SetPhasePercentage(phases, id2, q), id1, p)
  {
  }

  /** An edit of an id nobody carries changes nothing. */
  lemma SetAbsentPhase(phases: seq<Phase>, id: Uuid, p: int, s: string)
    requires PhaseIdAbsent(phases, id)
    ensures SetPhasePercentage(phases, id, p) == phases
    ensures SetPhaseStatus(phases, id, s) == phases
  {
  }

  /** A later status edit of the same phase overrides an earlier one. */
  lemma SetStatusLastWins(phases: seq<Phase>, id: Uuid, s: string, t: string)
    ensures SetPhaseStatus(SetPhaseStatus(phases, id, s), id, t) == SetPhaseStatus(phases, id, t)
  {
  }

  // ---------------------------------------------------------------------------
  // The component

  /** The outcome of `fetch` plus `response.json()` for the initial GET: `None` when either throws. */
  type Fetched = Option<Wire>

  class Dashboard {
    var loading: bool
    var data: Baseline
    var editedData: Option<Draft>
    var newImageCaption: string
    var newPhaseName: string
    var newPhasePercentage: int
    var newPhaseStatus: string

    /** The status select offers only the two statuses. */
    ghost predicate Valid()
      reads this
    {
      newPhaseStatus == Concluida || newPhaseStatus == Pendente
    }

    /** The initial state of the component's hooks. */
    constructor ()
      ensures Valid()
      ensures loading && data == NoBaseline && editedData == None
      ensures newImageCaption == "" && newPhaseName == "" && newPhasePercentage == 0
      ensures newPhaseStatus == Pendente
    {
      loading := true;
      data := NoBaseline;
      editedData := None;
      newImageCaption := "";
      newPhaseName := "";
      newPhasePercentage := 0;
      newPhaseStatus := Pendente;
    }

    /** The mount effect: baseline and draft both take the mapped body when it has an id. */
    method Load(result: Fetched)
      modifies this
      ensures !loading
      ensures var mapped := if result.Some? then MapResponse(result.value) else None;
        && (mapped.Some? ==> data == FromLoad(mapped.value) && editedData == mapped)
        && (mapped.None? ==> data == old(data) && editedData == old(editedData))
      ensures newImageCaption == old(newImageCaption) && newPhaseName == old(newPhaseName)
      ensures newPhasePercentage == old(newPhasePercentage) && newPhaseStatus == old(newPhaseStatus)
    {
      var mapped := if result.Some? then MapResponse(result.value) else None;
      if mapped.Some? {
        data := FromLoad(mapped.value);
        editedData := mapped;
      }
      loading := false;
    }

    /**
     * `handleSave`: sends the draft as it is; on an ok response only the
     * baseline changes, to the response body. `unreachable` says the request
     * threw before a response came back. Returns the body sent, if any.
     */
    method Save(store: Store, now: string, f: PutFaults, unreachable: bool) returns (sent: Option<Wire>)
      requires store.Valid()
      modifies this, store
      ensures store.Valid()
      ensures editedData == old(editedData) && loading == old(loading)
      ensures newImageCaption == old(newImageCaption) && newPhaseName == old(newPhaseName)
      ensures newPhasePercentage == old(newPhasePercentage) && newPhaseStatus == old(newPhaseStatus)
      ensures old(editedData).None? ==> sent == None
      ensures old(editedData).Some? ==> sent == Some(Serialize(old(editedData).value))
      ensures sent.None? || unreachable ==> store.State() == old(store.State()) && data == old(data)
      ensures sent.Some? && !unreachable ==>
        var r := PutSpec(old(store.State()), sent, now, f);
        && store.State() == r.db
        && (IsOk(r.response) ==> data == FromSave(r.response.body))
        && (!IsOk(r.response) ==> data == old(data))
    {
      if editedData.None? {
        return None;
      }
      sent := Some(Serialize(editedData.value));
      if unreachable {
        return;
      }
      var resp := store.Put(sent, now, f);
      if IsOk(resp) {
        data := FromSave(resp.body);
      }
    }

    /**
     * `handleImageUpload`: needs a file and a caption that is not blank;
     * `upload` is the URL the upload endpoint returns, `None` when it fails;
     * `freshId` stands for `crypto.randomUUID()`.
     */
    method UploadImage(hasFile: bool, upload: Option<string>, freshId: Uuid)
      modifies this
      ensures var accepted := hasFile && Trim(old(newImageCaption)) != "" && upload.Some? && old(editedData).Some?;
        && (accepted ==>
              && editedData == Some(old(editedData).value.(images := old(editedData).value.images
                                      + [Image(freshId, upload.value, old(newImageCaption))]))
              && newImageCaption == "")
        && (!accepted ==> editedData == old(editedData) && newImageCaption == old(newImageCaption))
      ensures data == old(data) && loading == old(loading)
      ensures newPhaseName == old(newPhaseName) && newPhasePercentage == old(newPhasePercentage)
      ensures newPhaseStatus == old(newPhaseStatus)
    {
      if !hasFile || Trim(newImageCaption) == "" {
        return;
      }
      if upload.None? {
        return;
      }
      if editedData.Some? {
        var d := editedData.value;
        editedData := Some(d.(images := d.images + [Image(freshId, upload.value, newImageCaption)]));
        newImageCaption := "";
      }
    }

    /** `handleRemoveImage`: the draft drops the image once the delete request settles without throwing. */
    method RemoveImage(image: Image, deleteThrew: bool)
      modifies this
      ensures old(editedData).Some? && !deleteThrew ==>
        editedData == Some(old(editedData).value.(images := RemoveImageById(old(editedData).value.images, image.id)))
      ensures old(editedData).None? || deleteThrew ==> editedData == old(editedData)
      ensures data == old(data) && loading == old(loading) && newImageCaption == old(newImageCaption)
      ensures newPhaseName == old(newPhaseName) && newPhasePercentage == old(newPhasePercentage)
      ensures newPhaseStatus == old(newPhaseStatus)
    {
      if editedData.None? || deleteThrew {
        return;
      }
      var d := editedData.value;
      editedData := Some(d.(images := RemoveImageById(d.images, image.id)));
    }

    /** `handleAddPhase`: appends the form's phase when the name is not empty, then resets the form. */
    method AddPhase(freshId: Uuid)
      requires Valid()
      modifies this
      ensures Valid()
      ensures old(editedData).Some? && old(newPhaseName) != "" ==>
        && editedData == Some(old(editedData).value.(phases := old(editedData).value.phases
             + [Phase(freshId, old(newPhaseName), old(newPhasePercentage), old(newPhaseStatus))]))
        && newPhaseName == "" && newPhasePercentage == 0 && newPhaseStatus == Pendente
      ensures old(editedData).None? || old(newPhaseName) == "" ==>
        && editedData == old(editedData) && newPhaseName == old(newPhaseName)
        && newPhasePercentage == old(newPhasePercentage) && newPhaseStatus == old(newPhaseStatus)
      ensures data == old(data) && loading == old(loading) && newImageCaption == old(newImageCaption)
    {
      if editedData.None? || newPhaseName == "" {
        return;
      }
      var d := editedData.value;
      editedData := Some(d.(phases := d.phases + [Phase(freshId, newPhaseName, newPhasePercentage, newPhaseStatus)]));
      newPhaseName := "";
      newPhasePercentage := 0;
      newPhaseStatus := Pendente;
    }

    /** `handleRemovePhase`. */
    method RemovePhase(id: Uuid)
      modifies this
      ensures old(editedData).Some? ==>
        editedData == Some(old(editedData).value.(phases := RemovePhaseById(old(editedData).value.phases, id)))
      ensures old(editedData).None? ==> editedData == None
      ensures data == old(data) && loading == old(loading) && newImageCaption == old(newImageCaption)
      ensures newPhaseName == old(newPhaseName) && newPhasePercentage == old(newPhasePercentage)
      ensures newPhaseStatus == old(newPhaseStatus)
    {
      if editedData.Some? {
        var d := editedData.value;
        editedData := Some(d.(phases := RemovePhaseById(d.phases, id)));
      }
    }

    /** `handlePhasePercentageChange`. */
    method PhasePercentageChange(id: Uuid, percentage: int)
      modifies this
      ensures old(editedData).Some? ==>
        editedData == Some(old(editedData).value.(phases := SetPhasePercentage(old(editedData).value.phases, id, percentage)))
      ensures old(editedData).None? ==> editedData == None
      ensures data == old(data) && loading == old(loading) && newImageCaption == old(newImageCaption)
      ensures newPhaseName == old(newPhaseName) && newPhasePercentage == old(newPhasePercentage)
      ensures newPhaseStatus == old(newPhaseStatus)
    {
      if editedData.Some? {
        var d := editedData.value;
        editedData := Some(d.(phases := SetPhasePercentage(d.phases, id, percentage)));
      }
    }

    /** `handlePhaseStatusChange`: the select offers the two statuses only. */
    method PhaseStatusChange(id: Uuid, status: string)
      requires status == Concluida || status == Pendente
      modifies this
      ensures old(editedData).Some? ==>
        editedData == Some(old(editedData).value.(phases := SetPhaseStatus(old(editedData).value.phases, id, status)))
      ensures old(editedData).None? ==> editedData == None
      ensures data == old(data) && loading == old(loading) && newImageCaption == old(newImageCaption)
      ensures newPhaseName == old(newPhaseName) && newPhasePercentage == old(newPhasePercentage)
      ensures newPhaseStatus == old(newPhaseStatus)
    {
      if editedData.Some? {
        var d := editedData.value;
        editedData := Some(d.(phases := SetPhaseStatus(d.phases, id, status)));
      }
    }

    /**
     * The header inputs of the "info" tab. They are rendered only once a
     * draft exists; text fields store the input's string, the progress
     * slider and the investment field store `Number(value)`.
     */
    method EditTitle(value: string)
      requires editedData.Some?
      modifies this
      ensures editedData == Some(old(editedData).value.(title := Str(value)))
      ensures data == old(data) && loading == old(loading) && newImageCaption == old(newImageCaption)
      ensures newPhaseName == old(newPhaseName) && newPhasePercentage == old(newPhasePercentage)
      ensures newPhaseStatus == old(newPhaseStatus)
    {
      editedData := Some(editedData.value.(title := Str(value)));
    }

    method EditDescription(value: string)
      requires editedData.Some?
      modifies this
      ensures editedData == Some(old(editedData).value.(description := Str(value)))
      ensures data == old(data) && loading == old(loading) && newImageCaption == old(newImageCaption)
      ensures newPhaseName == old(newPhaseName) && newPhasePercentage == old(newPhasePercentage)
      ensures newPhaseStatus == old(newPhaseStatus)
    {
      editedData := Some(editedData.value.(description := Str(value)));
    }

    method EditStartDate(value: string)
      requires editedData.Some?
      modifies this
      ensures editedData == Some(old(editedData).value.(startDate := Str(value)))
      ensures data == old(data) && loading == old(loading) && newImageCaption == old(newImageCaption)
      ensures newPhaseName == old(newPhaseName) && newPhasePercentage == old(newPhasePercentage)
      ensures newPhaseStatus == old(newPhaseStatus)
    {
      editedData := Some(editedData.value.(startDate := Str(value)));
    }

    method EditEndDate(value: string)
      requires editedData.Some?
      modifies this
      ensures editedData == Some(old(editedData).value.(endDate := Str(value)))
      ensures data == old(data) && loading == old(loading) && newImageCaption == old(newImageCaption)
      ensures newPhaseName == old(newPhaseName) && newPhasePercentage == old(newPhasePercentage)
      ensures newPhaseStatus == old(newPhaseStatus)
    {
      editedData := Some(editedData.value.(endDate := Str(value)));
    }

    method EditProgress(value: string)
      requires editedData.Some?
      modifies this
      ensures editedData == Some(old(editedData).value.(progressPercentage := NumberOfString(value)))
      ensures data == old(data) && loading == old(loading) && newImageCaption == old(newImageCaption)
      ensures newPhaseName == old(newPhaseName) && newPhasePercentage == old(newPhasePercentage)
      ensures newPhaseStatus == old(newPhaseStatus)
    {
      editedData := Some(editedData.value.(progressPercentage := NumberOfString(value)));
    }

    method EditTotalInvested(value: string)
      requires editedData.Some?
      modifies this
      ensures editedData == Some(old(editedData).value.(totalInvested := NumberOfString(value)))
      ensures data == old(data) && loading == old(loading) && newImageCaption == old(newImageCaption)
      ensures newPhaseName == old(newPhaseName) && newPhasePercentage == old(newPhasePercentage)
      ensures newPhaseStatus == old(newPhaseStatus)
    {
      editedData := Some(editedData.value.(totalInvested := NumberOfString(value)));
    }

    /** The inputs of the two forms. */
    method SetNewImageCaption(value: string)
      modifies this
      ensures newImageCaption == value
      ensures editedData == old(editedData) && data == old(data) && loading == old(loading)
      ensures newPhaseName == old(newPhaseName) && newPhasePercentage == old(newPhasePercentage)
      ensures newPhaseStatus == old(newPhaseStatus)
    {
      newImageCaption := value;
    }

    method SetNewPhaseName(value: string)
      modifies this
      ensures newPhaseName == value
      ensures editedData == old(editedData) && data == old(data) && loading == old(loading)
      ensures newImageCaption == old(newImageCaption) && newPhasePercentage == old(newPhasePercentage)
      ensures newPhaseStatus == old(newPhaseStatus)
    {
      newPhaseName := value;
    }

    method SetNewPhasePercentage(value: int)
      modifies this
      ensures newPhasePercentage == value
      ensures editedData == old(editedData) && data == old(data) && loading == old(loading)
      ensures newImageCaption == old(newImageCaption) && newPhaseName == old(newPhaseName)
      ensures newPhaseStatus == old(newPhaseStatus)
    {
      newPhasePercentage := value;
    }

    method SetNewPhaseStatus(value: string)
      requires value == Concluida || value == Pendente
      modifies this
      ensures Valid()
      ensures newPhaseStatus == value
      ensures editedData == old(editedData) && data == old(data) && loading == old(loading)
      ensures newImageCaption == old(newImageCaption) && newPhaseName == old(newPhaseName)
      ensures newPhasePercentage == old(newPhasePercentage)
    {
      newPhaseStatus := value;
    }
  }
}
