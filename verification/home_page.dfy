/**
 * The public page: what it derives from the fetched reforma body before
 * rendering — the two phase groups, the investment shown, the countdown
 * badge — and which sections it renders.
 */
module HomePage {
  import opened Wrappers
  import opened Js
  import opened Seqs
  import opened Reforma
  import opened ReformaRoute
  import opened AdminDashboard

  function IsConcluded(p: Phase): bool { p.status == Concluida }
  function IsPending(p: Phase): bool { p.status == Pendente }

  /** `phases.filter(phase => phase.status === "concluida")`. */
  function Concluded(phases: seq<Phase>): (r: seq<Phase>)
    ensures forall i :: 0 <= i < |r| ==> r[i].status == Concluida && r[i] in phases
    ensures forall i :: 0 <= i < |phases| && phases[i].status == Concluida ==> phases[i] in r
  {
    Filter(phases, IsConcluded)
  }

  /** `phases.filter(phase => phase.status === "pendente")`. */
  function Pending(phases: seq<Phase>): (r: seq<Phase>)
    ensures forall i :: 0 <= i < |r| ==> r[i].status == Pendente && r[i] in phases
    ensures forall i :: 0 <= i < |phases| && phases[i].status == Pendente ==> phases[i] in r
  {
    Filter(phases, IsPending)
  }

  /** No phase appears in both groups. */
  lemma GroupsDisjoint(phases: seq<Phase>)
    ensures forall i, j :: 0 <= i < |Concluded(phases)| && 0 <= j < |Pending(phases)| ==>
      Concluded(phases)[i] != Pending(phases)[j]
  {
  }

  /** When every status is one of the two, the groups together hold every phase. */
  lemma GroupsCoverAll(phases: seq<Phase>)
    requires forall i :: 0 <= i < |phases| ==> phases[i].status == Concluida || phases[i].status == Pendente
    ensures |Concluded(phases)| + |Pending(phases)| == |phases|
    ensures forall i :: 0 <= i < |phases| ==> phases[i] in Concluded(phases) || phases[i] in Pending(phases)
  {
    FilterPartition(phases, IsConcluded, IsPending);
  }

  /** Each group lists its phases in the order of the full list. */
  lemma GroupsKeepOrder(a: seq<Phase>, b: seq<Phase>)
    ensures Concluded(a + b) == Concluded(a) + Concluded(b)
    ensures Pending(a + b) == Pending(a) + Pending(b)
  {
    FilterConcat(a, b, IsConcluded);
    FilterConcat(a, b, IsPending);
  }

  /** Marking a phase "concluida" in the dashboard moves it to the concluded group. */
  lemma StatusChangeMovesPhase(phases: seq<Phase>, k: nat)
    requires k < |phases|
    ensures var after := SetPhaseStatus(phases, phases[k].id, Concluida);
      && after[k] == phases[k].(status := Concluida)
      && after[k] in Concluded(after)
      && after[k] !in Pending(after)
  {
  }

  /** `typeof total_invested === "number" ? total_invested : 0`. */
  function InvestmentShown(v: Val): (r: Val)
    ensures IsNumber(v) ==> r == v
    ensures !IsNumber(v) ==> r == Num(0.0)
  {
    if v.Num? || v.NaN? then v else Num(0.0)
  }

  /** The badge: a countdown while days remain, "Concluído" otherwise (NaN included). */
  datatype Badge = DaysLeft(days: int) | Done

  /** `daysRemaining > 0 ? ... : "Concluído"`; `None` stands for NaN. */
  function BadgeFor(daysRemaining: Option<int>): (b: Badge)
    ensures b.DaysLeft? <==> daysRemaining.Some? && daysRemaining.value > 0
    ensures b.DaysLeft? ==> b.days == daysRemaining.value
  {
    if daysRemaining.Some? && daysRemaining.value > 0 then DaysLeft(daysRemaining.value) else Done
  }

  /** The component's state: still fetching, or done with the parsed body (`None` when the fetch threw). */
  datatype HomeState = Loading | Ready(data: Option<Wire>)

  /** A phase group's section: `None` when it is not rendered. */
  type Section = Option<seq<Phase>>

  /** The image gallery: `None` when it is not rendered. */
  type Gallery = Option<seq<Image>>

  /** What the component renders. */
  datatype View =
    | Spinner
    | Fallback
    | Crash                   // `data.phases.filter` throws: the body has no phase list
    | Page(progress: Val, badge: Badge, investment: Val,
           phasesShown: bool, concludedSection: Section, pendingSection: Section,
           gallery: Gallery)

  /** A group is rendered only inside the phase block and only when it is non-empty. */
  function GroupSection(shown: bool, group: seq<Phase>): (s: Section)
    ensures s.Some? <==> shown && |group| > 0
    ensures s.Some? ==> s.value == group
  {
    if shown && |group| > 0 then Some(group) else None
  }

  /** `data.images && data.images.length > 0`: the gallery needs a non-empty image list. */
  function GallerySection(images: Option<seq<Image>>): (g: Gallery)
    ensures g.Some? <==> images.Some? && |images.value| > 0
    ensures g.Some? ==> g.value == images.value
  {
    if images.Some? && |images.value| > 0 then images else None
  }

  /** The component, given the state and the day count computed from `end_date` and now. */
  function Render(state: HomeState, daysRemaining: Option<int>): (v: View)
    ensures state.Loading? <==> v.Spinner?
    ensures v.Fallback? <==> state.Ready? && state.data.None?
    ensures v.Crash? <==> state.Ready? && state.data.Some? && state.data.value.phases.None?
    ensures v.Page? ==>
      var d := state.data.value;
      && v.investment == InvestmentShown(d.total_invested)
      && v.progress == d.progress_percentage
      && v.badge == BadgeFor(daysRemaining)
      && (v.phasesShown <==> |d.phases.value| > 0)
      && (v.concludedSection.Some? <==> v.phasesShown && |Concluded(d.phases.value)| > 0)
      && (v.pendingSection.Some? <==> v.phasesShown && |Pending(d.phases.value)| > 0)
      && (v.gallery.Some? <==> d.images.Some? && |d.images.value| > 0)
      && (v.gallery.Some? ==> v.gallery.value == d.images.value)
  {
    match state
    case Loading => Spinner
    case Ready(None) => Fallback
    case Ready(Some(d)) =>
      if d.phases.None? then Crash
      else
        var shown := |d.phases.value| > 0;
        Page(d.progress_percentage, BadgeFor(daysRemaining), InvestmentShown(d.total_invested),
             shown, GroupSection(shown, Concluded(d.phases.value)), GroupSection(shown, Pending(d.phases.value)),
             GallerySection(d.images))
  }

  /**
   * On a successful GET the page shows the normalised investment and groups
   * the project's phases, in `created_at` order, by status.
   */
  lemma PageOfGetReply(db: Db, daysRemaining: Option<int>)
    requires GetReply(db, NoGetFaults).status == 200
    ensures var v := Render(Ready(Some(GetReply(db, NoGetFaults).body)), daysRemaining);
      var phases := PhasesOut(OrderedPhaseRows(db.phases));
      && v.Page?
      && v.investment == Num(ParseFloatOrZero(SingleHeader(db.reforma).value.total_invested))
      && (v.concludedSection.Some? ==> v.concludedSection.value == Concluded(phases))
      && (v.pendingSection.Some? ==> v.pendingSection.value == Pending(phases))
      && (v.gallery.Some? <==> |ImagesOut(OrderedImageRows(db.images))| > 0)
      && (v.gallery.Some? ==> v.gallery.value == ImagesOut(OrderedImageRows(db.images)))
  {
  }

  /**
   * A GET that fails answers `{ error }`, a truthy object without `phases`:
   * the page does not fall back to its "no data" card but throws while rendering.
   */
  lemma ErrorReplyCrashesPage(db: Db, f: GetFaults, daysRemaining: Option<int>)
    requires GetReply(db, f).status == 500
    ensures Render(Ready(Some(GetReply(db, f).body)), daysRemaining) == Crash
  {
  }
}
