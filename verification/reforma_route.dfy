/**
 * The `/api/reforma` route: GET loads the project header and its two child
 * tables and projects them into a response; PUT overwrites the header in
 * place and replaces both child tables by delete-all then insert-all.
 *
 * The relational store is a class holding the three tables. Row ids that
 * the database generates come from the counter `nextId`, and `clock` is the
 * database's `now()` used for `created_at`. Whether each store call succeeds
 * is an input (`GetFaults`, `PutFaults`), so the non-atomic, step-ordered
 * behaviour of PUT can be stated.
 */
module ReformaRoute {
  import opened Wrappers
  import opened Js
  import opened Seqs
  import opened Reforma

  // ---------------------------------------------------------------------------
  // Tables

  datatype HeaderRow = HeaderRow(
    id: Uuid, title: Val, description: Val, start_date: Val, end_date: Val,
    progress_percentage: Val, total_invested: Val, updated_at: Val)

  datatype PhaseRow = PhaseRow(
    id: Uuid, reforma_id: Uuid, name: string, percentage: int, status: string, created_at: nat)

  datatype ImageRow = ImageRow(
    id: Uuid, reforma_id: Uuid, url: string, caption: string, created_at: nat)

  /** Contents of the store: tables `reforma`, `reforma_phases`, `reforma_images`. */
  datatype Db = Db(
    reforma: seq<HeaderRow>, phases: seq<PhaseRow>, images: seq<ImageRow>,
    nextId: nat, clock: nat)

  function PhaseCreatedAt(r: PhaseRow): nat { r.created_at }
  function ImageCreatedAt(r: ImageRow): nat { r.created_at }
  function IsProjectHeader(h: HeaderRow): bool { h.id == DefaultReformaId }
  function IsProjectPhase(r: PhaseRow): bool { r.reforma_id == DefaultReformaId }
  function IsOtherPhase(r: PhaseRow): bool { r.reforma_id != DefaultReformaId }
  function IsProjectImage(r: ImageRow): bool { r.reforma_id == DefaultReformaId }
  function IsOtherImage(r: ImageRow): bool { r.reforma_id != DefaultReformaId }

  /**
   * What the store guarantees between requests: every generated id is below
   * `nextId`, every `created_at` is in the past, and rows sit in the order
   * they were inserted, which is ascending `created_at`.
   */
  predicate DbValid(db: Db) {
    && (forall i :: 0 <= i < |db.phases| ==> db.phases[i].id < db.nextId && db.phases[i].created_at < db.clock)
    && (forall i :: 0 <= i < |db.images| ==> db.images[i].id < db.nextId && db.images[i].created_at < db.clock)
    && SortedBy(db.phases, PhaseCreatedAt)
    && SortedBy(db.images, ImageCreatedAt)
  }

  // ---------------------------------------------------------------------------
  // Queries and projections

  /** `.from("reforma").select("*").eq("id", DEFAULT_REFORMA_ID).single()`: exactly one row or an error. */
  function SingleHeader(rows: seq<HeaderRow>): (r: Option<HeaderRow>)
    ensures r.Some? ==> r.value in rows && r.value.id == DefaultReformaId
    ensures r.Some? <==> |Filter(rows, IsProjectHeader)| == 1
  {
    var matching := Filter(rows, IsProjectHeader);
    if |matching| == 1 then Some(matching[0]) else None
  }

  /** The project's phase rows, `.order("created_at", { ascending: true })`. */
  function OrderedPhaseRows(rows: seq<PhaseRow>): (r: seq<PhaseRow>)
    ensures forall i :: 0 <= i < |r| ==> r[i].reforma_id == DefaultReformaId && r[i] in rows
    ensures SortedBy(r, PhaseCreatedAt)
    ensures multiset(r) == multiset(Filter(rows, IsProjectPhase))
  {
    SortedFilter(rows, IsProjectPhase, PhaseCreatedAt)
  }

  /** The project's image rows, `.order("created_at", { ascending: true })`. */
  function OrderedImageRows(rows: seq<ImageRow>): (r: seq<ImageRow>)
    ensures forall i :: 0 <= i < |r| ==> r[i].reforma_id == DefaultReformaId && r[i] in rows
    ensures SortedBy(r, ImageCreatedAt)
    ensures multiset(r) == multiset(Filter(rows, IsProjectImage))
  {
    SortedFilter(rows, IsProjectImage, ImageCreatedAt)
  }

  function PhaseOut(r: PhaseRow): Phase {
    Phase(r.id, r.name, r.percentage, r.status)
  }

  function ImageOut(r: ImageRow): Image {
    Image(r.id, r.url, r.caption)
  }

  /** `phases.map(phase => ({ id, name, percentage, status }))`. */
  function PhasesOut(rows: seq<PhaseRow>): (r: seq<Phase>)
    ensures |r| == |rows|
    ensures forall i :: 0 <= i < |rows| ==> r[i] == PhaseOut(rows[i])
  {
    seq(|rows|, i requires 0 <= i < |rows| => PhaseOut(rows[i]))
  }

  /** `images.map(img => ({ id, url, caption }))`. */
  function ImagesOut(rows: seq<ImageRow>): (r: seq<Image>)
    ensures |r| == |rows|
    ensures forall i :: 0 <= i < |rows| ==> r[i] == ImageOut(rows[i])
  {
    seq(|rows|, i requires 0 <= i < |rows| => ImageOut(rows[i]))
  }

  /** The response object both handlers build from a header row and the two child lists. */
  function Assemble(h: HeaderRow, images: seq<Image>, phases: seq<Phase>): (w: Wire)
    ensures w.id == Some(h.id) && w.title == h.title && w.description == h.description
    ensures w.start_date == h.start_date && w.end_date == h.end_date
    ensures w.progress_percentage == h.progress_percentage
    ensures w.total_invested == Num(ParseFloatOrZero(h.total_invested))
    ensures w.images == Some(images) && w.phases == Some(phases)
    ensures w.startDate == w.endDate == w.progressPercentage == w.totalInvested == Undefined
  {
    Wire(Some(h.id), h.title, h.description, h.start_date, h.end_date, h.progress_percentage,
         Num(ParseFloatOrZero(h.total_invested)),
         Undefined, Undefined, Undefined, Undefined,
         Some(images), Some(phases), Undefined)
  }

  // ---------------------------------------------------------------------------
  // GET

  /** Which of GET's three queries return an error. */
  datatype GetFaults = GetFaults(headerFails: bool, imagesFails: bool, phasesFails: bool)

  const NoGetFaults := GetFaults(false, false, false)

  const LoadErrorMessage := "Erro ao buscar dados"
  const SaveErrorMessage := "Erro ao salvar dados"

  /** The GET handler's response for the store contents `db`. */
  function GetReply(db: Db, f: GetFaults): (r: HttpResponse)
    ensures r.status == 200 || r.status == 500
    ensures r.status == 500 <==>
      f.headerFails || f.imagesFails || f.phasesFails || SingleHeader(db.reforma).None?
    ensures r.status == 500 ==> r.body == ErrorBody(LoadErrorMessage)
    ensures r.status == 200 ==>
      && r.body.id == Some(DefaultReformaId)
      && r.body.total_invested == Num(ParseFloatOrZero(SingleHeader(db.reforma).value.total_invested))
      && r.body.phases == Some(PhasesOut(OrderedPhaseRows(db.phases)))
      && r.body.images == Some(ImagesOut(OrderedImageRows(db.images)))
  {
    var header := SingleHeader(db.reforma);
    if f.headerFails || header.None? || f.imagesFails || f.phasesFails then
      HttpResponse(500, ErrorBody(LoadErrorMessage))
    else
      HttpResponse(200, Assemble(header.value, ImagesOut(OrderedImageRows(db.images)),
                                 PhasesOut(OrderedPhaseRows(db.phases))))
  }

  /** Only the project's own rows can influence what GET returns. */
  lemma GetReadsOnlyProjectRows(db: Db, f: GetFaults)
    ensures GetReply(db, f) == GetReply(db.(reforma := Filter(db.reforma, IsProjectHeader),
                                            phases := Filter(db.phases, IsProjectPhase),
                                            images := Filter(db.images, IsProjectImage)), f)
  {
    FilterFilter(db.reforma, IsProjectHeader, IsProjectHeader);
    FilterFilter(db.phases, IsProjectPhase, IsProjectPhase);
    FilterFilter(db.images, IsProjectImage, IsProjectImage);
  }

  // ---------------------------------------------------------------------------
  // PUT

  /** Which of PUT's store calls return an error. */
  datatype PutFaults = PutFaults(
    updateFails: bool,
    phasesDeleteFails: bool, phasesInsertFails: bool,
    imagesDeleteFails: bool, imagesInsertFails: bool,
    reloadHeaderFails: bool, reloadImagesFails: bool, reloadPhasesFails: bool)

  const NoPutFaults := PutFaults(false, false, false, false, false, false, false, false)

  /**
   * One column of `.update({...})`: the request body is serialised to JSON,
   * so a key whose value is `undefined` is dropped and the column keeps its value.
   */
  function Assign(column: Val, v: Val): (r: Val)
    ensures v != Undefined ==> r == v
    ensures v == Undefined ==> r == column
  {
    if v.Undefined? then column else v
  }

  /** The header row after `.update(...)` with the snake_case fields of `body`. */
  function UpdatedHeader(h: HeaderRow, body: Wire, now: string): (r: HeaderRow)
    ensures r.id == h.id
    ensures r.total_invested == Num(ParseFloatOrZero(body.total_invested))
    ensures r.updated_at == Str(now)
    ensures body.title != Undefined ==> r.title == body.title
    ensures body.title == Undefined ==> r.title == h.title
    ensures body.description != Undefined ==> r.description == body.description
    ensures body.description == Undefined ==> r.description == h.description
    ensures body.start_date != Undefined ==> r.start_date == body.start_date
    ensures body.start_date == Undefined ==> r.start_date == h.start_date
    ensures body.end_date != Undefined ==> r.end_date == body.end_date
    ensures body.end_date == Undefined ==> r.end_date == h.end_date
    ensures body.progress_percentage != Undefined ==> r.progress_percentage == body.progress_percentage
    ensures body.progress_percentage == Undefined ==> r.progress_percentage == h.progress_percentage
  {
    h.(title := Assign(h.title, body.title),
       description := Assign(h.description, body.description),
       start_date := Assign(h.start_date, body.start_date),
       end_date := Assign(h.end_date, body.end_date),
       progress_percentage := Assign(h.progress_percentage, body.progress_percentage),
       total_invested := Num(ParseFloatOrZero(body.total_invested)),
       updated_at := Str(now))
  }

  /** `.update(...).eq("id", DEFAULT_REFORMA_ID)`: every matching row is rewritten in place. */
  function UpdateHeaders(rows: seq<HeaderRow>, body: Wire, now: string): (r: seq<HeaderRow>)
    ensures |r| == |rows|
    ensures forall i :: 0 <= i < |rows| ==> r[i].id == rows[i].id
    ensures forall i :: 0 <= i < |rows| && rows[i].id != DefaultReformaId ==> r[i] == rows[i]
  {
    seq(|rows|, i requires 0 <= i < |rows| =>
      if rows[i].id == DefaultReformaId then UpdatedHeader(rows[i], body, now) else rows[i])
  }

  /** The rows `.insert(body.phases.map(...))` adds: submitted ids are not part of them. */
  function NewPhaseRows(ps: seq<Phase>, firstId: nat, at: nat): (r: seq<PhaseRow>)
    ensures |r| == |ps|
    ensures forall i :: 0 <= i < |r| ==>
      r[i].id == firstId + i && r[i].reforma_id == DefaultReformaId && r[i].created_at == at
    ensures SamePhasesExceptIds(PhasesOut(r), ps)
  {
    seq(|ps|, i requires 0 <= i < |ps| =>
      PhaseRow(firstId + i, DefaultReformaId, ps[i].name, ps[i].percentage, ps[i].status, at))
  }

  /** The rows `.insert(body.images.map(...))` adds: submitted ids are not part of them. */
  function NewImageRows(imgs: seq<Image>, firstId: nat, at: nat): (r: seq<ImageRow>)
    ensures |r| == |imgs|
    ensures forall i :: 0 <= i < |r| ==>
      r[i].id == firstId + i && r[i].reforma_id == DefaultReformaId && r[i].created_at == at
    ensures SameImagesExceptIds(ImagesOut(r), imgs)
  {
    seq(|imgs|, i requires 0 <= i < |imgs| =>
      ImageRow(firstId + i, DefaultReformaId, imgs[i].url, imgs[i].caption, at))
  }

  /** The submitted list, with a missing one read as empty. */
  function Submitted<T>(list: Option<seq<T>>): seq<T> {
    list.GetOr([])
  }

  /** A store state after one step of PUT, and whether that step ended the request with an error. */
  datatype Step = Step(db: Db, aborted: bool)

  /**
   * Delete the project's phases (the outcome is not checked), then insert the
   * submitted list unless it is missing or empty; an insert error aborts.
   */
  function PhaseStep(db: Db, submitted: Option<seq<Phase>>, f: PutFaults): (r: Step)
    ensures r.db.reforma == db.reforma && r.db.images == db.images
    ensures r.aborted <==> |Submitted(submitted)| > 0 && f.phasesInsertFails
    ensures r.db.nextId == db.nextId + (if r.aborted then 0 else |Submitted(submitted)|)
    ensures forall i :: 0 <= i < |db.phases| && IsOtherPhase(db.phases[i]) ==> db.phases[i] in r.db.phases
    ensures !f.phasesDeleteFails ==>
      forall i :: 0 <= i < |r.db.phases| && r.db.phases[i].id < db.nextId ==> IsOtherPhase(r.db.phases[i])
  {
    var kept := if f.phasesDeleteFails then db.phases else Filter(db.phases, IsOtherPhase);
    if submitted.None? || |submitted.value| == 0 then Step(db.(phases := kept), false)
    else if f.phasesInsertFails then Step(db.(phases := kept), true)
    else
      Step(db.(phases := kept + NewPhaseRows(submitted.value, db.nextId, db.clock),
               nextId := db.nextId + |submitted.value|, clock := db.clock + 1), false)
  }

  /** The same delete-then-insert step for images. */
  function ImageStep(db: Db, submitted: Option<seq<Image>>, f: PutFaults): (r: Step)
    ensures r.db.reforma == db.reforma && r.db.phases == db.phases
    ensures r.aborted <==> |Submitted(submitted)| > 0 && f.imagesInsertFails
    ensures r.db.nextId == db.nextId + (if r.aborted then 0 else |Submitted(submitted)|)
    ensures forall i :: 0 <= i < |db.images| && IsOtherImage(db.images[i]) ==> db.images[i] in r.db.images
    ensures !f.imagesDeleteFails ==>
      forall i :: 0 <= i < |r.db.images| && r.db.images[i].id < db.nextId ==> IsOtherImage(r.db.images[i])
  {
    var kept := if f.imagesDeleteFails then db.images else Filter(db.images, IsOtherImage);
    if submitted.None? || |submitted.value| == 0 then Step(db.(images := kept), false)
    else if f.imagesInsertFails then Step(db.(images := kept), true)
    else
      Step(db.(images := kept + NewImageRows(submitted.value, db.nextId, db.clock),
               nextId := db.nextId + |submitted.value|, clock := db.clock + 1), false)
  }

  /**
   * The final re-read: no ordering clause and no error checks; a missing
   * header makes `reforma.id` throw, a failed child query reads as `[]`.
   */
  function Reload(db: Db, f: PutFaults): (r: HttpResponse)
    ensures r.status == 200 || r.status == 500
    ensures r.status == 500 <==> f.reloadHeaderFails || SingleHeader(db.reforma).None?
    ensures r.status == 500 ==> r.body == ErrorBody(SaveErrorMessage)
    ensures r.status == 200 && f.reloadPhasesFails ==> r.body.phases == Some([])
    ensures r.status == 200 && f.reloadImagesFails ==> r.body.images == Some([])
  {
    var header := SingleHeader(db.reforma);
    if f.reloadHeaderFails || header.None? then HttpResponse(500, ErrorBody(SaveErrorMessage))
    else
      var images := if f.reloadImagesFails then [] else ImagesOut(Filter(db.images, IsProjectImage));
      var phases := if f.reloadPhasesFails then [] else PhasesOut(Filter(db.phases, IsProjectPhase));
      HttpResponse(200, Assemble(header.value, images, phases))
  }

  datatype PutResult = PutResult(db: Db, response: HttpResponse)

  /**
   * PUT as a function of the store it starts from: header, then phases, then
   * images, then the reload; the first failing checked step ends it with 500
   * and leaves the earlier steps applied. `body` is `None` when the request
   * body is not JSON.
   */
  function PutSpec(db: Db, body: Option<Wire>, now: string, f: PutFaults): (r: PutResult)
    ensures r.response.status == 200 || r.response.status == 500
    ensures r.response.status == 500 ==> r.response.body == ErrorBody(SaveErrorMessage)
    ensures body.None? || f.updateFails ==> r.db == db
    ensures body.Some? && !f.updateFails ==> r.db.reforma == UpdateHeaders(db.reforma, body.value, now)
    ensures r.response.status == 200 <==>
      && body.Some? && !f.updateFails
      && !(|Submitted(body.value.phases)| > 0 && f.phasesInsertFails)
      && !(|Submitted(body.value.images)| > 0 && f.imagesInsertFails)
      && !f.reloadHeaderFails && SingleHeader(r.db.reforma).Some?
  {
    if body.None? || f.updateFails then PutResult(db, HttpResponse(500, ErrorBody(SaveErrorMessage)))
    else
      var b := body.value;
      var afterHeader := db.(reforma := UpdateHeaders(db.reforma, b, now));
      var afterPhases := PhaseStep(afterHeader, b.phases, f);
      if afterPhases.aborted then PutResult(afterPhases.db, HttpResponse(500, ErrorBody(SaveErrorMessage)))
      else
        var afterImages := ImageStep(afterPhases.db, b.images, f);
        if afterImages.aborted then PutResult(afterImages.db, HttpResponse(500, ErrorBody(SaveErrorMessage)))
        else PutResult(afterImages.db, Reload(afterImages.db, f))
  }

  // ---------------------------------------------------------------------------
  // The store

  class Store {
    var reforma: seq<HeaderRow>
    var phases: seq<PhaseRow>
    var images: seq<ImageRow>
    var nextId: nat
    var clock: nat

    function State(): Db
      reads this
    {
      Db(reforma, phases, images, nextId, clock)
    }

    ghost predicate Valid()
      reads this
    {
      DbValid(State())
    }

    /** A store seeded out of band (the project row is never created by the routes). */
    constructor (initial: Db)
      requires DbValid(initial)
      ensures Valid() && State() == initial
    {
      reforma, phases, images := initial.reforma, initial.phases, initial.images;
      nextId, clock := initial.nextId, initial.clock;
    }

    /** The GET handler: reads the three tables and changes nothing. */
    method Get(f: GetFaults) returns (resp: HttpResponse)
      requires Valid()
      ensures resp == GetReply(State(), f)
    {
      var header := SingleHeader(reforma);
      if f.headerFails || header.None? || f.imagesFails || f.phasesFails {
        return HttpResponse(500, ErrorBody(LoadErrorMessage));
      }
      var imgs := ImagesOut(OrderedImageRows(images));
      var phs := PhasesOut(OrderedPhaseRows(phases));
      resp := HttpResponse(200, Assemble(header.value, imgs, phs));
    }

    /** The PUT handler: updates the tables in place, one store call after another. */
    method Put(body: Option<Wire>, now: string, f: PutFaults) returns (resp: HttpResponse)
      requires Valid()
      modifies this
      ensures Valid()
      ensures State() == PutSpec(old(State()), body, now, f).db
      ensures resp == PutSpec(old(State()), body, now, f).response
    {
      if body.None? || f.updateFails {
        return HttpResponse(500, ErrorBody(SaveErrorMessage));
      }
      var b := body.value;
      UpdateHeader(b, now);
      var aborted := ReplacePhases(b.phases, f);
      if aborted {
        return HttpResponse(500, ErrorBody(SaveErrorMessage));
      }
      aborted := ReplaceImages(b.images, f);
      if aborted {
        return HttpResponse(500, ErrorBody(SaveErrorMessage));
      }
      resp := Reload(State(), f);
    }

    /** `.from("reforma").update({...}).eq("id", DEFAULT_REFORMA_ID)` when it succeeds. */
    method UpdateHeader(b: Wire, now: string)
      requires Valid()
      modifies this
      ensures Valid()
      ensures State() == old(State()).(reforma := UpdateHeaders(old(reforma), b, now))
    {
      reforma := UpdateHeaders(reforma, b, now);
    }

    /** Delete the project's phases, then insert the submitted ones. */
    method ReplacePhases(submitted: Option<seq<Phase>>, f: PutFaults) returns (aborted: bool)
      requires Valid()
      modifies this
      ensures Valid()
      ensures Step(State(), aborted) == PhaseStep(old(State()), submitted, f)
    {
      ghost var before := State();
      PhaseStepValid(before, submitted, f);
      if !f.phasesDeleteFails {
        phases := Filter(phases, IsOtherPhase);
      }
      assert State() == before.(phases := if f.phasesDeleteFails then before.phases else Filter(before.phases, IsOtherPhase));
      aborted := false;
      if submitted.Some? && |submitted.value| > 0 {
        if f.phasesInsertFails {
          return true;
        }
        phases := phases + NewPhaseRows(submitted.value, nextId, clock);
        nextId := nextId + |submitted.value|;
        clock := clock + 1;
      }
    }

    /** Delete the project's images, then insert the submitted ones. */
    method ReplaceImages(submitted: Option<seq<Image>>, f: PutFaults) returns (aborted: bool)
      requires Valid()
      modifies this
      ensures Valid()
      ensures Step(State(), aborted) == ImageStep(old(State()), submitted, f)
    {
      ghost var before := State();
      ImageStepValid(before, submitted, f);
      if !f.imagesDeleteFails {
        images := Filter(images, IsOtherImage);
      }
      assert State() == before.(images := if f.imagesDeleteFails then before.images else Filter(before.images, IsOtherImage));
      aborted := false;
      if submitted.Some? && |submitted.value| > 0 {
        if f.imagesInsertFails {
          return true;
        }
        images := images + NewImageRows(submitted.value, nextId, clock);
        nextId := nextId + |submitted.value|;
        clock := clock + 1;
      }
    }
  }

  // ---------------------------------------------------------------------------
  // Properties of PUT

  lemma AppendSorted<T>(kept: seq<T>, added: seq<T>, key: T -> nat, at: nat)
    requires SortedBy(kept, key)
    requires forall i :: 0 <= i < |kept| ==> key(kept[i]) < at
    requires forall i :: 0 <= i < |added| ==> key(added[i]) == at
    ensures SortedBy(kept + added, key)
  {
  }

  lemma PhaseStepValid(db: Db, submitted: Option<seq<Phase>>, f: PutFaults)
    requires DbValid(db)
    ensures DbValid(PhaseStep(db, submitted, f).db)
  {
    FilterSorted(db.phases, IsOtherPhase, PhaseCreatedAt);
    var kept := if f.phasesDeleteFails then db.phases else Filter(db.phases, IsOtherPhase);
    assert forall i :: 0 <= i < |kept| ==> kept[i].id < db.nextId && kept[i].created_at < db.clock by {
      forall i | 0 <= i < |kept| ensures kept[i].id < db.nextId && kept[i].created_at < db.clock {
        assert kept[i] in db.phases;
      }
    }
    if submitted.Some? && |submitted.value| > 0 && !f.phasesInsertFails {
      AppendSorted(kept, NewPhaseRows(submitted.value, db.nextId, db.clock), PhaseCreatedAt, db.clock);
    }
  }

  lemma ImageStepValid(db: Db, submitted: Option<seq<Image>>, f: PutFaults)
    requires DbValid(db)
    ensures DbValid(ImageStep(db, submitted, f).db)
  {
    FilterSorted(db.images, IsOtherImage, ImageCreatedAt);
    var kept := if f.imagesDeleteFails then db.images else Filter(db.images, IsOtherImage);
    assert forall i :: 0 <= i < |kept| ==> kept[i].id < db.nextId && kept[i].created_at < db.clock by {
      forall i | 0 <= i < |kept| ensures kept[i].id < db.nextId && kept[i].created_at < db.clock {
        assert kept[i] in db.images;
      }
    }
    if submitted.Some? && |submitted.value| > 0 && !f.imagesInsertFails {
      AppendSorted(kept, NewImageRows(submitted.value, db.nextId, db.clock), ImageCreatedAt, db.clock);
    }
  }

  /** Every PUT, whatever fails, leaves the store satisfying its invariant. */
  lemma PutPreservesValid(db: Db, body: Option<Wire>, now: string, f: PutFaults)
    requires DbValid(db)
    ensures DbValid(PutSpec(db, body, now, f).db)
  {
    if body.Some? && !f.updateFails {
      var b := body.value;
      var db1 := db.(reforma := UpdateHeaders(db.reforma, b, now));
      PhaseStepValid(db1, b.phases, f);
      var s2 := PhaseStep(db1, b.phases, f);
      ImageStepValid(s2.db, b.images, f);
    }
  }


  /** PUT's store calls run in a fixed order, and the first checked failure stops the rest. */
  lemma PutAbortsInOrder(db: Db, b: Wire, now: string, f: PutFaults)
    ensures PutSpec(db, None, now, f).db == db
    ensures f.updateFails ==> PutSpec(db, Some(b), now, f).db == db
    ensures var r := PutSpec(db, Some(b), now, f);
      !f.updateFails && |Submitted(b.phases)| > 0 && f.phasesInsertFails ==>
        && r.response.status == 500
        && r.db.reforma == UpdateHeaders(db.reforma, b, now)
        && r.db.phases == (if f.phasesDeleteFails then db.phases else Filter(db.phases, IsOtherPhase))
        && r.db.images == db.images
    ensures var r := PutSpec(db, Some(b), now, f);
      && !f.updateFails && !(|Submitted(b.phases)| > 0 && f.phasesInsertFails)
      && |Submitted(b.images)| > 0 && f.imagesInsertFails ==>
        && r.response.status == 500
        && r.db.reforma == UpdateHeaders(db.reforma, b, now)
        && r.db.phases == PhaseStep(db.(reforma := UpdateHeaders(db.reforma, b, now)), b.phases, f).db.phases
        && r.db.images == (if f.imagesDeleteFails then db.images else Filter(db.images, IsOtherImage))
  {
  }

  /** The project's rows after a successful delete are exactly the inserted ones. */
  lemma {:induction false} ReplacedRows<T>(rows: seq<T>, added: seq<T>, mine: T -> bool, other: T -> bool)
    requires forall x :: mine(x) <==> !other(x)
    requires forall i :: 0 <= i < |added| ==> mine(added[i])
    ensures Filter(Filter(rows, other) + added, mine) == added
    ensures Filter(Filter(rows, other) + added, other) == Filter(rows, other)
  {
    var kept := Filter(rows, other);
    FilterConcat(kept, added, mine);
    FilterConcat(kept, added, other);
    FilterDropsAll(kept, mine);
    FilterKeepsAll(added, mine);
    FilterDropsAll(added, other);
    FilterFilter(rows, other, other);
    assert [] + added == added;
    assert kept + [] == kept;
  }

  /** The phase table PUT leaves behind is the one its phase step produced. */
  lemma PutPhasesFromPhaseStep(db: Db, b: Wire, now: string, f: PutFaults)
    requires !f.updateFails
    ensures PutSpec(db, Some(b), now, f).db.phases
         == PhaseStep(db.(reforma := UpdateHeaders(db.reforma, b, now)), b.phases, f).db.phases
  {
  }

  /**
   * After a PUT whose header update and phase delete succeed and whose phase
   * insert does not fail, the project's phases are exactly the submitted ones
   * (same name, percentage and status, same order, new ids), none of the
   * earlier rows survives, and other projects' phases are untouched.
   */
  lemma PutReplacesPhases(db: Db, b: Wire, now: string, f: PutFaults)
    requires DbValid(db)
    requires !f.updateFails && !f.phasesDeleteFails && !(|Submitted(b.phases)| > 0 && f.phasesInsertFails)
    ensures var after := PutSpec(db, Some(b), now, f).db;
      && SamePhasesExceptIds(PhasesOut(Filter(after.phases, IsProjectPhase)), Submitted(b.phases))
      && (forall r :: r in Filter(after.phases, IsProjectPhase) ==> r !in db.phases && r.id >= db.nextId)
      && Filter(after.phases, IsOtherPhase) == Filter(db.phases, IsOtherPhase)
  {
    var db1 := db.(reforma := UpdateHeaders(db.reforma, b, now));
    PutPhasesFromPhaseStep(db, b, now, f);
    var added := NewPhaseRows(Submitted(b.phases), db.nextId, db.clock);
    assert PhaseStep(db1, b.phases, f).db.phases == Filter(db.phases, IsOtherPhase) + added;
    ReplacedRows(db.phases, added, IsProjectPhase, IsOtherPhase);
    forall r | r in added ensures r !in db.phases && r.id >= db.nextId {
      assert forall k :: 0 <= k < |db.phases| ==> db.phases[k] != r;
    }
  }

  /** The same replace semantics for images, which PUT handles after the phases. */
  lemma PutReplacesImages(db: Db, b: Wire, now: string, f: PutFaults)
    requires DbValid(db)
    requires !f.updateFails && !(|Submitted(b.phases)| > 0 && f.phasesInsertFails)
    requires !f.imagesDeleteFails && !(|Submitted(b.images)| > 0 && f.imagesInsertFails)
    ensures var after := PutSpec(db, Some(b), now, f).db;
      && SameImagesExceptIds(ImagesOut(Filter(after.images, IsProjectImage)), Submitted(b.images))
      && (forall r :: r in Filter(after.images, IsProjectImage) ==> r !in db.images && r.id >= db.nextId)
      && Filter(after.images, IsOtherImage) == Filter(db.images, IsOtherImage)
  {
    var db1 := db.(reforma := UpdateHeaders(db.reforma, b, now));
    var s2 := PhaseStep(db1, b.phases, f);
    assert s2.db.images == db.images && s2.db.nextId >= db.nextId;
    var added := NewImageRows(Submitted(b.images), s2.db.nextId, s2.db.clock);
    assert ImageStep(s2.db, b.images, f).db.images == Filter(db.images, IsOtherImage) + added;
    ReplacedRows(db.images, added, IsProjectImage, IsOtherImage);
    forall r | r in added ensures r !in db.images && r.id >= db.nextId {
      assert forall k :: 0 <= k < |db.images| ==> db.images[k] != r;
    }
  }

  lemma NewPhaseRowsIgnoreIds(ps: seq<Phase>, qs: seq<Phase>, firstId: nat, at: nat)
    requires SamePhasesExceptIds(ps, qs)
    ensures NewPhaseRows(ps, firstId, at) == NewPhaseRows(qs, firstId, at)
  {
  }

  lemma NewImageRowsIgnoreIds(xs: seq<Image>, ys: seq<Image>, firstId: nat, at: nat)
    requires SameImagesExceptIds(xs, ys)
    ensures NewImageRows(xs, firstId, at) == NewImageRows(ys, firstId, at)
  {
  }

  /** Inserted rows never carry the ids the client submitted: PUT does not depend on them. */
  lemma PutIgnoresSubmittedIds(db: Db, b: Wire, phases: Option<seq<Phase>>, images: Option<seq<Image>>,
                               now: string, f: PutFaults)
    requires phases.None? <==> b.phases.None?
    requires phases.Some? ==> SamePhasesExceptIds(b.phases.value, phases.value)
    requires images.None? <==> b.images.None?
    requires images.Some? ==> SameImagesExceptIds(b.images.value, images.value)
    ensures PutSpec(db, Some(b), now, f) == PutSpec(db, Some(b.(phases := phases, images := images)), now, f)
  {
    var b' := b.(phases := phases, images := images);
    if !f.updateFails {
      var db1 := db.(reforma := UpdateHeaders(db.reforma, b, now));
      assert db1 == db.(reforma := UpdateHeaders(db.reforma, b', now));
      if phases.Some? {
        NewPhaseRowsIgnoreIds(b.phases.value, phases.value, db1.nextId, db1.clock);
      }
      var s2 := PhaseStep(db1, b.phases, f);
      assert s2 == PhaseStep(db1, b'.phases, f);
      if images.Some? {
        NewImageRowsIgnoreIds(b.images.value, images.value, s2.db.nextId, s2.db.clock);
      }
      var s3 := ImageStep(s2.db, b.images, f);
      assert s3 == ImageStep(s2.db, b'.images, f);
      var err := HttpResponse(500, ErrorBody(SaveErrorMessage));
      var r := if s2.aborted then PutResult(s2.db, err)
               else if s3.aborted then PutResult(s3.db, err)
               else PutResult(s3.db, Reload(s3.db, f));
      assert PutSpec(db, Some(b), now, f) == r;
      assert PutSpec(db, Some(b'), now, f) == r;
    }
  }

  // ---------------------------------------------------------------------------
  // PUT followed by GET

  lemma UpdateHeadersConcat(a: seq<HeaderRow>, c: seq<HeaderRow>, b: Wire, now: string)
    ensures UpdateHeaders(a + c, b, now) == UpdateHeaders(a, b, now) + UpdateHeaders(c, b, now)
  {
  }

  /** The update rewrites exactly the project's header rows and keeps them in place. */
  lemma {:induction false} FilterUpdateHeaders(rows: seq<HeaderRow>, b: Wire, now: string)
    ensures Filter(UpdateHeaders(rows, b, now), IsProjectHeader)
         == UpdateHeaders(Filter(rows, IsProjectHeader), b, now)
  {
    if |rows| > 0 {
      var first, rest := [rows[0]], rows[1..];
      var head := if IsProjectHeader(rows[0]) then first else [];
      assert rows == first + rest;
      UpdateHeadersConcat(first, rest, b, now);
      FilterConcat(UpdateHeaders(first, b, now), UpdateHeaders(rest, b, now), IsProjectHeader);
      assert Filter(UpdateHeaders(first, b, now), IsProjectHeader) == UpdateHeaders(head, b, now);
      FilterUpdateHeaders(rest, b, now);
      assert Filter(rows, IsProjectHeader) == head + Filter(rest, IsProjectHeader);
      UpdateHeadersConcat(head, Filter(rest, IsProjectHeader), b, now);
    }
  }

  /** PUT neither creates nor removes the project's header: `.single()` finds the updated row. */
  lemma SingleHeaderAfterUpdate(rows: seq<HeaderRow>, b: Wire, now: string)
    ensures SingleHeader(UpdateHeaders(rows, b, now)).Some? <==> SingleHeader(rows).Some?
    ensures SingleHeader(rows).Some? ==>
      SingleHeader(UpdateHeaders(rows, b, now)) == Some(UpdatedHeader(SingleHeader(rows).value, b, now))
  {
    FilterUpdateHeaders(rows, b, now);
  }

  /**
   * Rows sit in insertion order, which is `created_at` order, so the ordered
   * queries of GET return the same lists as the unordered reload of PUT.
   */
  lemma OrderedRowsArePhysical(db: Db)
    requires DbValid(db)
    ensures OrderedPhaseRows(db.phases) == Filter(db.phases, IsProjectPhase)
    ensures OrderedImageRows(db.images) == Filter(db.images, IsProjectImage)
  {
    FilterSorted(db.phases, IsProjectPhase, PhaseCreatedAt);
    SortByKeyOfSorted(Filter(db.phases, IsProjectPhase), PhaseCreatedAt);
    FilterSorted(db.images, IsProjectImage, ImageCreatedAt);
    SortByKeyOfSorted(Filter(db.images, IsProjectImage), ImageCreatedAt);
  }

  /** On a valid store, PUT's fault-free reload answers exactly what GET answers. */
  lemma ReloadIsGet(db: Db, f: PutFaults)
    requires DbValid(db)
    requires !f.reloadHeaderFails && !f.reloadImagesFails && !f.reloadPhasesFails
    requires SingleHeader(db.reforma).Some?
    ensures Reload(db, f) == GetReply(db, NoGetFaults)
  {
    OrderedRowsArePhysical(db);
  }

  /** A PUT that answers 200 answers with its reload. */
  lemma PutOkIsReload(db: Db, body: Option<Wire>, now: string, f: PutFaults)
    ensures var r := PutSpec(db, body, now, f);
      r.response.status == 200 ==> r.response == Reload(r.db, f) && SingleHeader(r.db.reforma).Some?
  {
  }

  /** Whatever PUT answers with 200 is what GET answers on the store PUT left behind. */
  lemma PutReplyMatchesGet(db: Db, body: Option<Wire>, now: string, f: PutFaults)
    requires DbValid(db)
    requires !f.reloadHeaderFails && !f.reloadImagesFails && !f.reloadPhasesFails
    ensures var r := PutSpec(db, body, now, f);
      r.response.status == 200 ==> r.response == GetReply(r.db, NoGetFaults)
  {
    var r := PutSpec(db, body, now, f);
    PutOkIsReload(db, body, now, f);
    if r.response.status == 200 {
      PutPreservesValid(db, body, now, f);
      ReloadIsGet(r.db, f);
    }
  }

  /**
   * A PUT in which no store call fails, on a store holding the project's
   * header, is read back by GET: the submitted phases and images in
   * submission order (with new ids), the normalised investment, and every
   * header column the body sets.
   */
  lemma PutThenGet(db: Db, b: Wire, now: string)
    requires DbValid(db) && SingleHeader(db.reforma).Some?
    ensures var r := PutSpec(db, Some(b), now, NoPutFaults);
      var g := GetReply(r.db, NoGetFaults);
      var h := SingleHeader(db.reforma).value;
      && r.response == g
      && g.status == 200
      && SamePhasesExceptIds(g.body.phases.value, Submitted(b.phases))
      && SameImagesExceptIds(g.body.images.value, Submitted(b.images))
      && g.body.total_invested == Num(ParseFloatOrZero(b.total_invested))
      && g.body.title == Assign(h.title, b.title)
      && g.body.description == Assign(h.description, b.description)
      && g.body.start_date == Assign(h.start_date, b.start_date)
      && g.body.end_date == Assign(h.end_date, b.end_date)
      && g.body.progress_percentage == Assign(h.progress_percentage, b.progress_percentage)
  {
    var f := NoPutFaults;
    var r := PutSpec(db, Some(b), now, f);
    var db1 := db.(reforma := UpdateHeaders(db.reforma, b, now));
    var s2 := PhaseStep(db1, b.phases, f);
    var s3 := ImageStep(s2.db, b.images, f);
    assert r.db == s3.db;
    assert r.db.reforma == UpdateHeaders(db.reforma, b, now);
    SingleHeaderAfterUpdate(db.reforma, b, now);
    PutReplacesPhases(db, b, now, f);
    PutReplacesImages(db, b, now, f);
    PutReplyMatchesGet(db, Some(b), now, f);
    PutPreservesValid(db, Some(b), now, f);
    OrderedRowsArePhysical(r.db);
    ParseFloatOrZeroIdempotent(b.total_invested);
  }

  /**
   * Saving the same body twice in a row is the same as saving it once: on a
   * store holding the project's header, with no store call failing, GET
   * answers the same phases and images (up to the generated ids) and the
   * same value in every header column after either save.
   */
  lemma PutIdempotent(db: Db, b: Wire, now1: string, now2: string)
    requires DbValid(db) && SingleHeader(db.reforma).Some?
    ensures var r1 := PutSpec(db, Some(b), now1, NoPutFaults);
      var r2 := PutSpec(r1.db, Some(b), now2, NoPutFaults);
      var g1 := GetReply(r1.db, NoGetFaults);
      var g2 := GetReply(r2.db, NoGetFaults);
      && g1.status == 200 && g2.status == 200
      && SamePhasesExceptIds(g1.body.phases.value, g2.body.phases.value)
      && SameImagesExceptIds(g1.body.images.value, g2.body.images.value)
      && g1.body.title == g2.body.title
      && g1.body.description == g2.body.description
      && g1.body.start_date == g2.body.start_date
      && g1.body.end_date == g2.body.end_date
      && g1.body.progress_percentage == g2.body.progress_percentage
      && g1.body.total_invested == g2.body.total_invested
  {
    var r1 := PutSpec(db, Some(b), now1, NoPutFaults);
    PutThenGet(db, b, now1);
    PutPreservesValid(db, Some(b), now1, NoPutFaults);
    SingleHeaderAfterUpdate(db.reforma, b, now1);
    PutThenGet(r1.db, b, now2);
  }
}
