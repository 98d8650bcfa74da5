/**
 * The browser side of the todo application (app/src/lib.rs): the model the
 * page renders from and the `update` reducer that reacts to messages.
 *
 * The reducer's effects on `orders` become a returned `Orders` value: the
 * request it starts (whose answer comes back later as a completion message)
 * and whether it asked to skip the next render.
 */
module TodoClient {

  import opened Optional

  /**
   * The outcome of a fetch: the list the server answered with, or a failure
   * carried only as the text the page shows for it.
   */
  datatype FetchResult = Ok(items: seq<string>) | Err(debug: string)

  datatype Msg =
    | Save
    | Clear
    | Remove(item: string)
    | TextEntered(value: string)
    | FetchedItems(resp: FetchResult)
    | SaveCompleted(resp: FetchResult)
    | ClearCompleted(resp: FetchResult)
    | RemoveCompleted(resp: FetchResult)
  {
    /** The messages that deliver a server answer. */
    predicate IsCompletion() {
      FetchedItems? || SaveCompleted? || ClearCompleted? || RemoveCompleted?
    }
  }

  /** The four server calls the page can start. */
  datatype Request = FetchAll | AddItem(value: string) | RemoveItem(value: string) | ClearAll

  /** What one reducer step asks of the runtime. */
  datatype Orders = Orders(cmd: Option<Request>, skipRender: bool)

  const NoOrders := Orders(None, false)

  /** The message a started request delivers once its answer `resp` arrives. */
  function Completion(req: Request, resp: FetchResult): (msg: Msg)
    ensures msg.IsCompletion() && msg.resp == resp
    ensures req.AddItem? <==> msg.SaveCompleted?
    ensures req.RemoveItem? <==> msg.RemoveCompleted?
    ensures req.ClearAll? <==> msg.ClearCompleted?
  {
    match req
    case FetchAll => FetchedItems(resp)
    case AddItem(_) => SaveCompleted(resp)
    case RemoveItem(_) => RemoveCompleted(resp)
    case ClearAll => ClearCompleted(resp)
  }

  /** The page model `Model` as a value. */
  datatype ModelState = ModelState(items: seq<string>, newValue: string, error: Option<string>)

  /** `Model::default()`. */
  const DefaultState := ModelState([], "", None)

  datatype Step = Step(model: ModelState, orders: Orders)

  /** The model after a server answer: new items, or an error to show. */
  function Receive(m: ModelState, resp: FetchResult): (r: ModelState)
    ensures resp.Ok? ==> r.items == resp.items && r.newValue == m.newValue && r.error == m.error
    ensures resp.Err? ==> r.error.Some? && r.items == m.items && r.newValue == m.newValue
  {
    match resp
    case Ok(items) => m.(items := items)
    case Err(e) => m.(error := Some(e))
  }

  /**
   * One reducer step as a function of the model and the message. Its
   * contract says what a step can change and why.
   */
  function Next(m: ModelState, msg: Msg): (r: Step)
    ensures m.error.Some? ==> r.model.error.Some?
    ensures r.model.error != m.error ==> msg.IsCompletion() && msg.resp.Err?
    ensures r.model.items != m.items ==> msg.IsCompletion() && msg.resp == Ok(r.model.items)
    ensures msg.IsCompletion() && msg.resp.Ok? ==> r.model.items == msg.resp.items
    ensures r.model.newValue != m.newValue ==> msg.Save? || msg.TextEntered?
    ensures r.orders.cmd.Some? <==> msg.Save? || msg.Clear? || msg.Remove?
    ensures r.orders.skipRender <==> msg.Save? || msg.Clear?
  {
    match msg
    case Save => Step(m.(newValue := ""), Orders(Some(AddItem(m.newValue)), true))
    case Clear => Step(m, Orders(Some(ClearAll), true))
    case Remove(item) => Step(m, Orders(Some(RemoveItem(item)), false))
    case TextEntered(value) => Step(m.(newValue := value), NoOrders)
    case FetchedItems(resp) => Step(Receive(m, resp), NoOrders)
    case SaveCompleted(resp) => Step(Receive(m, resp), NoOrders)
    case ClearCompleted(resp) => Step(Receive(m, resp), NoOrders)
    case RemoveCompleted(resp) => Step(Receive(m, resp), NoOrders)
  }

  /** The page model, updated in place by the reducer. */
  class Model {
    var items: seq<string>
    var newValue: string
    var error: Option<string>

    function State(): ModelState
      reads this
    {
      ModelState(items, newValue, error)
    }

    constructor ()
      ensures State() == DefaultState
    {
      items, newValue, error := [], "", None;
    }

    /** `update`: react to one message, assigning the fields it concerns. */
    method Update(msg: Msg) returns (orders: Orders)
      modifies this
      ensures Step(State(), orders) == Next(old(State()), msg)
      ensures msg.TextEntered? ==>
                newValue == msg.value && items == old(items) && error == old(error) && orders == NoOrders
      ensures msg.Save? ==>
                orders == Orders(Some(AddItem(old(newValue))), true) &&
                newValue == "" && items == old(items) && error == old(error)
      ensures msg.Clear? ==> State() == old(State()) && orders == Orders(Some(ClearAll), true)
      ensures msg.Remove? ==> State() == old(State()) && orders == Orders(Some(RemoveItem(msg.item)), false)
      ensures msg.IsCompletion() && msg.resp.Ok? ==>
                items == msg.resp.items && newValue == old(newValue) && error == old(error) && orders == NoOrders
      ensures msg.IsCompletion() && msg.resp.Err? ==>
                error.Some? && items == old(items) && newValue == old(newValue) && orders == NoOrders
    {
      match msg
      case Save =>
        var value := newValue;
        newValue := "";
        orders := Orders(Some(AddItem(value)), true);
      case Clear =>
        orders := Orders(Some(ClearAll), true);
      case Remove(item) =>
        orders := Orders(Some(RemoveItem(item)), false);
      case TextEntered(value) =>
        newValue := value;
        orders := NoOrders;
      case FetchedItems(resp) =>
        ReceiveInPlace(resp);
        orders := NoOrders;
      case SaveCompleted(resp) =>
        ReceiveInPlace(resp);
        orders := NoOrders;
      case ClearCompleted(resp) =>
        ReceiveInPlace(resp);
        orders := NoOrders;
      case RemoveCompleted(resp) =>
        ReceiveInPlace(resp);
        orders := NoOrders;
    }

    /** The `match resp` shared by the four completion arms. */
    method ReceiveInPlace(resp: FetchResult)
      modifies this
      ensures State() == Receive(old(State()), resp)
    {
      match resp
      case Ok(list) => items := list;
      case Err(e) => error := Some(e);
    }
  }

  /** `init`: a default model, and a request for the server's list. */
  method Init() returns (model: Model, orders: Orders)
    ensures fresh(model)
    ensures model.State() == DefaultState
    ensures orders == Orders(Some(FetchAll), false)
  {
    model := new Model();
    orders := Orders(Some(FetchAll), false);
  }

  // ---------------------------------------------------------------------------
  // Runs of several messages
  // ---------------------------------------------------------------------------

  /** The model after the reducer has handled `msgs` in order. */
  function Run(m: ModelState, msgs: seq<Msg>): ModelState
    decreases |msgs|
  {
    if msgs == [] then m else Run(Next(m, msgs[0]).model, msgs[1..])
  }

  /** The items of the last successful server answer in `msgs`, else `initial`. */
  function LastItems(msgs: seq<Msg>, initial: seq<string>): seq<string>
    decreases |msgs|
  {
    if msgs == [] then initial
    else
      var last := msgs[|msgs| - 1];
      if last.IsCompletion() && last.resp.Ok? then last.resp.items
      else LastItems(msgs[..|msgs| - 1], initial)
  }

  /** Handling one more message after a run is one more step. */
  lemma {:induction false} RunSnoc(m: ModelState, msgs: seq<Msg>, msg: Msg)
    ensures Run(m, msgs + [msg]) == Next(Run(m, msgs), msg).model
    decreases |msgs|
  {
    if msgs == [] {
      assert [] + [msg] == [msg];
    } else {
      assert (msgs + [msg])[1..] == msgs[1..] + [msg];
      RunSnoc(Next(m, msgs[0]).model, msgs[1..], msg);
    }
  }

  /** The rendered list is always the last list the server answered with. */
  lemma {:induction false} RunItemsAreLastAnswer(m: ModelState, msgs: seq<Msg>)
    ensures Run(m, msgs).items == LastItems(msgs, m.items)
    decreases |msgs|
  {
    if msgs != [] {
      var init, last := msgs[..|msgs| - 1], msgs[|msgs| - 1];
      assert msgs == init + [last];
      RunSnoc(m, init, last);
      RunItemsAreLastAnswer(m, init);
    }
  }

  /** Once an error is shown, no message removes it. */
  lemma {:induction false} RunKeepsError(m: ModelState, msgs: seq<Msg>)
    requires m.error.Some?
    ensures Run(m, msgs).error.Some?
    decreases |msgs|
  {
    if msgs != [] {
      RunKeepsError(Next(m, msgs[0]).model, msgs[1..]);
    }
  }

  /**
   * A request started by a step, answered with the list `l`, makes `l` the
   * shown list and changes nothing else.
   */
  lemma AnsweredRequestShowsList(m: ModelState, msg: Msg, l: seq<string>)
    requires Next(m, msg).orders.cmd.Some?
    ensures var s := Next(m, msg);
      Next(s.model, Completion(s.orders.cmd.value, Ok(l))).model == s.model.(items := l)
  {
  }

  /** Text typed and then saved is what the add request carries; the field is emptied. */
  lemma EnteredTextIsSaved(m: ModelState, text: string)
    ensures var typed := Next(m, TextEntered(text)).model;
      Next(typed, Save) == Step(m.(newValue := ""), Orders(Some(AddItem(text)), true))
  {
  }
}
