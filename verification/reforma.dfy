/**
 * The reforma aggregate as it travels between the store, the API routes and
 * the two React components: a header, an ordered list of phases and an
 * ordered list of images.
 */
module Reforma {
  import opened Wrappers
  import opened Js

  /** A UUID, an opaque 128-bit identifier. */
  type Uuid = nat

  /** The single project this deployment manages (`DEFAULT_REFORMA_ID`). */
  const DefaultReformaId: Uuid := 0x550e8400_e29b_41d4_a716_446655440000

  /** The two phase statuses the user interface offers. */
  const Concluida: string := "concluida"
  const Pendente: string := "pendente"

  datatype Image = Image(id: Uuid, url: string, caption: string)

  datatype Phase = Phase(id: Uuid, name: string, percentage: int, status: string)

  /**
   * A JSON object body of the reforma API: a GET or PUT response, a PUT
   * request, or an error body. Both spellings of the header keys are kept
   * apart, since the server writes and reads snake_case while the admin
   * dashboard keeps and sends camelCase. `Undefined` marks an absent key;
   * `images` and `phases` are `None` when the key is absent or not an array.
   */
  datatype Wire = Wire(
    id: Option<Uuid>,
    title: Val,
    description: Val,
    start_date: Val,
    end_date: Val,
    progress_percentage: Val,
    total_invested: Val,
    startDate: Val,
    endDate: Val,
    progressPercentage: Val,
    totalInvested: Val,
    images: Option<seq<Image>>,
    phases: Option<seq<Phase>>,
    error: Val)

  /** `{ error: message }`. */
  function ErrorBody(message: string): (w: Wire)
    ensures w.id.None? && w.images.None? && w.phases.None? && w.error == Str(message)
  {
    Wire(None, Undefined, Undefined, Undefined, Undefined, Undefined, Undefined,
         Undefined, Undefined, Undefined, Undefined, None, None, Str(message))
  }

  datatype HttpResponse = HttpResponse(status: int, body: Wire)

  /** `response.ok`. */
  predicate IsOk(r: HttpResponse) {
    200 <= r.status <= 299
  }

  /** Phases equal in every field but their ids, position by position. */
  predicate SamePhasesExceptIds(a: seq<Phase>, b: seq<Phase>) {
    |a| == |b| &&
    forall i :: 0 <= i < |a| ==>
      a[i].name == b[i].name && a[i].percentage == b[i].percentage && a[i].status == b[i].status
  }

  /** Images equal in every field but their ids, position by position. */
  predicate SameImagesExceptIds(a: seq<Image>, b: seq<Image>) {
    |a| == |b| &&
    forall i :: 0 <= i < |a| ==> a[i].url == b[i].url && a[i].caption == b[i].caption
  }
}
