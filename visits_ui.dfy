/** The browser-side `VisitManager`: today's visits as loaded from the API
    and the list it renders, where the buttons offered depend on each
    visit's status. HTML is reduced to the items and actions it shows. */
module VisitsUi {
  import opened Common
  import opened VisitModel
  import opened VisitRoutes

  /** The buttons of a visit item: Başlat, Tamamla and Detay. */
  datatype Action = Start(id: Id) | Complete(id: Id) | Detail(id: Id)

  datatype VisitItem = VisitItem(id: Id, customerName: string, statusLabel: string, actions: seq<Action>)

  /** The list container's content: the "nothing planned today" block with
      its "add a visit" button, or one item per visit. */
  datatype VisitsView = EmptyState | Items(items: seq<VisitItem>)

  /** `getStatusText`: the four known statuses get their labels; any other
      string is shown as it is. */
  function StatusText(status: string): (text: string)
    ensures status == "planned" ==> text == "Planlandı"
    ensures status == "in-progress" ==> text == "Devam Ediyor"
    ensures status == "completed" ==> text == "Tamamlandı"
    ensures status == "cancelled" ==> text == "İptal Edildi"
    ensures ParseStatus(status).None? ==> text == status
  {
    if status == "planned" then "Planlandı"
    else if status == "in-progress" then "Devam Ediyor"
    else if status == "completed" then "Tamamlandı"
    else if status == "cancelled" then "İptal Edildi"
    else status
  }

  /** The action buttons of one visit: Start only for `planned`, Complete
      only for `in-progress`, Detail always. */
  function ActionsFor(e: Entry): (acts: seq<Action>)
    ensures Start(e.id) in acts <==> e.visit.status == Planned
    ensures Complete(e.id) in acts <==> e.visit.status == InProgress
    ensures |acts| >= 1 && acts[|acts| - 1] == Detail(e.id)
    ensures forall a :: a in acts ==> a.id == e.id
  {
    var key := StatusKey(e.visit.status);
    (if key == "planned" then [Start(e.id)] else [])
    + (if key == "in-progress" then [Complete(e.id)] else [])
    + [Detail(e.id)]
  }

  /** No visit is offered both Start and Complete; completed and cancelled
      visits are offered Detail alone. */
  lemma ActionsExclusive(e: Entry)
    ensures !(Start(e.id) in ActionsFor(e) && Complete(e.id) in ActionsFor(e))
    ensures e.visit.status in {Completed, Cancelled} ==> ActionsFor(e) == [Detail(e.id)]
    ensures |ActionsFor(e)| == 2 <==> e.visit.status in {Planned, InProgress}
  {
  }

  function ItemFor(e: Entry): VisitItem {
    VisitItem(e.id, e.visit.customer.name, StatusText(StatusKey(e.visit.status)), ActionsFor(e))
  }

  /** `currentVisits` is `None` once an error answer has set it to
      `undefined`; rendering then throws before anything is shown. */
  class VisitManager {
    var currentVisits: Option<seq<Entry>>

    constructor()
      ensures currentVisits == Some([])
    {
      currentVisits := Some([]);
    }

    /** `loadVisits`: an answer's `data` replaces the list and is rendered.
        An error answer has no `data`, so the list becomes `undefined` and
        the render throws into the alert; a failed fetch leaves the list as
        it was and renders nothing. */
    method LoadVisits(reply: Reply<seq<Entry>>) returns (view: Option<VisitsView>)
      modifies this
      ensures reply.Body? ==> currentVisits == Some(reply.body) && view.Some? && view == RenderVisits()
      ensures reply.ErrorBody? ==> currentVisits == None && view == None
      ensures reply.NetworkFailure? ==> currentVisits == old(currentVisits) && view == None
    {
      match reply
      case NetworkFailure =>
        view := None;
      case ErrorBody =>
        currentVisits := None;
        view := RenderVisits();
      case Body(data) =>
        currentVisits := Some(data);
        view := RenderVisits();
    }

    /** `renderVisits`: throws on an `undefined` list; the empty-state
        block for an empty list; otherwise exactly one item per visit, in
        list order, with the status-gated actions. */
    function RenderVisits(): (view: Option<VisitsView>)
      reads this
      ensures view.None? <==> currentVisits.None?
      ensures view == Some(EmptyState) <==> currentVisits == Some([])
      ensures view.Some? && view.value.Items? ==>
                var visits := currentVisits.value;
                && |view.value.items| == |visits|
                && forall i :: 0 <= i < |visits| ==>
                     && view.value.items[i].id == visits[i].id
                     && (Start(visits[i].id) in view.value.items[i].actions <==> visits[i].visit.status == Planned)
                     && (Complete(visits[i].id) in view.value.items[i].actions <==> visits[i].visit.status == InProgress)
                     && Detail(visits[i].id) in view.value.items[i].actions
    {
      if currentVisits.None? then None
      else
        var visits := currentVisits.value;
        if |visits| == 0 then Some(EmptyState)
        else Some(Items(seq(|visits|, i requires 0 <= i < |visits| => ItemFor(visits[i]))))
    }
  }
}
