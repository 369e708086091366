/** The catalog of browser actions (scrapypuppeteer/actions.py): each action
    has an endpoint tag, a content type and a payload, and `Compose` chains
    several actions into one flattened sequence. */
module Actions {
  import opened Common
  import opened Json

  /** One browser action. Option dictionaries that may be None are `Json`
      values (`Null` for None). `Extension` stands for an action class defined
      outside the catalog, with its own endpoint name and a dictionary
      payload. */
  datatype Action =
    | GoTo(url: string, navigationOptions: Json, waitOptions: Json, harRecording: bool)
    | GoForward(navigationOptions: Json, waitOptions: Json)
    | GoBack(navigationOptions: Json, waitOptions: Json)
    | Click(selector: string, clickOptions: Json, waitOptions: Json, navigationOptions: Json)
    | Scroll(target: Json, waitOptions: Json)
    | Screenshot(options: map<string, Json>)
    | Har
    | FillForm(inputMapping: Json, submitButton: Json)
    | RecaptchaSolver(solveRecaptcha: bool, closeOnEmpty: bool, navigationOptions: Json, waitOptions: Json)
    | CustomJsAction(jsAction: string)
    | Compose(actions: seq<Action>)
    | Extension(name: string, body: map<string, Json>)

  const JsonContentType := "application/json"
  const JavascriptContentType := "application/javascript"

  /** The endpoint tags of the catalog actions. */
  const CatalogTags: set<string> :=
    {"goto", "forward", "back", "click", "scroll", "screenshot", "har",
     "fill_form", "recaptcha_solver", "action", "compose"}

  function Endpoint(a: Action): (r: string)
    ensures a.Extension? || r in CatalogTags
  {
    match a
    case GoTo(_, _, _, _) => "goto"
    case GoForward(_, _) => "forward"
    case GoBack(_, _) => "back"
    case Click(_, _, _, _) => "click"
    case Scroll(_, _) => "scroll"
    case Screenshot(_) => "screenshot"
    case Har => "har"
    case FillForm(_, _) => "fill_form"
    case RecaptchaSolver(_, _, _, _) => "recaptcha_solver"
    case CustomJsAction(_) => "action"
    case Compose(_) => "compose"
    case Extension(name, _) => name
  }

  /** Every action is sent as JSON except a custom JavaScript action. */
  function ContentType(a: Action): (r: string)
    ensures r == JavascriptContentType <==> a.CustomJsAction?
    ensures r == JsonContentType <==> !a.CustomJsAction?
  {
    if a.CustomJsAction? then JavascriptContentType else JsonContentType
  }

  /** The body sent to the backend for an action. Fields that are None stay
      explicit nulls at this layer. */
  function Payload(a: Action): (r: Json)
    decreases a
  {
    match a
    case GoTo(url, nav, wait, har) =>
      Obj(map["url" := Str(url), "navigationOptions" := nav, "waitOptions" := wait,
              "harRecording" := Bool(har)])
    case GoForward(nav, wait) =>
      Obj(map["navigationOptions" := nav, "waitOptions" := wait])
    case GoBack(nav, wait) =>
      Obj(map["navigationOptions" := nav, "waitOptions" := wait])
    case Click(selector, click, wait, nav) =>
      Obj(map["selector" := Str(selector), "clickOptions" := click, "waitOptions" := wait,
              "navigationOptions" := nav])
    case Scroll(selector, wait) =>
      Obj(map["selector" := selector, "waitOptions" := wait])
    case Screenshot(options) =>
      Obj(map["options" := Obj(options)])
    case Har =>
      Obj(map[])
    case FillForm(mapping, submit) =>
      Obj(map["inputMapping" := mapping, "submitButton" := submit])
    case RecaptchaSolver(solve, close, nav, wait) =>
      Obj(map["solve_recaptcha" := Bool(solve), "close_on_empty" := Bool(close),
              "navigationOptions" := nav, "waitOptions" := wait])
    case CustomJsAction(js) =>
      Str(js)
    case Compose(actions) =>
      Obj(map["actions" := Arr(EncodeSteps(actions))])
    case Extension(_, body) =>
      Obj(body)
  }

  /** The `{"endpoint": ..., "body": ...}` entry for one step of a Compose. */
  function Step(endpoint: string, body: Json): Json {
    Obj(map["endpoint" := Str(endpoint), "body" := body])
  }

  /** The step list of a Compose payload: one entry per action, in order. */
  function EncodeSteps(actions: seq<Action>): (r: seq<Json>)
    decreases actions
    ensures |r| == |actions|
    ensures forall i :: 0 <= i < |actions| ==> r[i] == Step(Endpoint(actions[i]), Payload(actions[i]))
  {
    if actions == [] then []
    else [Step(Endpoint(actions[0]), Payload(actions[0]))] + EncodeSteps(actions[1..])
  }

  /** The names under which an action's payload carries its fields. */
  function PayloadKeys(a: Action): set<string> {
    match a
    case GoTo(_, _, _, _) => {"url", "navigationOptions", "waitOptions", "harRecording"}
    case GoForward(_, _) => {"navigationOptions", "waitOptions"}
    case GoBack(_, _) => {"navigationOptions", "waitOptions"}
    case Click(_, _, _, _) => {"selector", "clickOptions", "waitOptions", "navigationOptions"}
    case Scroll(_, _) => {"selector", "waitOptions"}
    case Screenshot(_) => {"options"}
    case Har => {}
    case FillForm(_, _) => {"inputMapping", "submitButton"}
    case RecaptchaSolver(_, _, _, _) => {"solve_recaptcha", "close_on_empty", "navigationOptions", "waitOptions"}
    case CustomJsAction(_) => {}
    case Compose(_) => {"actions"}
    case Extension(_, body) => body.Keys
  }

  /** Only a custom JavaScript action sends a bare string; every other payload
      is a dictionary with exactly the action's field names. */
  lemma PayloadShape(a: Action)
    ensures a.CustomJsAction? <==> Payload(a).Str?
    ensures a.CustomJsAction? ==> Payload(a) == Str(a.jsAction)
    ensures !a.CustomJsAction? ==> Payload(a).Obj? && Payload(a).fields.Keys == PayloadKeys(a)
  {
  }

  // ---------------------------------------------------------------------
  // Decoding: the payload and the endpoint together determine the action.

  /** A field of a dictionary payload; a missing field reads as null. */
  function Field(body: Json, k: string): Json {
    if body.Obj? then Get(body.fields, k) else Null
  }

  /** Recovers an action from its endpoint tag and payload, as the backend
      reads them. */
  function Decode(endpoint: string, body: Json): (r: Option<Action>)
    decreases body, 1
  {
    if endpoint == "goto" then
      var url := Field(body, "url");
      var har := Field(body, "harRecording");
      if url.Str? && har.Bool? then
        Some(GoTo(url.s, Field(body, "navigationOptions"), Field(body, "waitOptions"), har.b))
      else None
    else if endpoint == "forward" then
      if body.Obj? then Some(GoForward(Field(body, "navigationOptions"), Field(body, "waitOptions")))
      else None
    else if endpoint == "back" then
      if body.Obj? then Some(GoBack(Field(body, "navigationOptions"), Field(body, "waitOptions")))
      else None
    else if endpoint == "click" then
      var selector := Field(body, "selector");
      if selector.Str? then
        Some(Click(selector.s, Field(body, "clickOptions"), Field(body, "waitOptions"),
                   Field(body, "navigationOptions")))
      else None
    else if endpoint == "scroll" then
      if body.Obj? then Some(Scroll(Field(body, "selector"), Field(body, "waitOptions")))
      else None
    else if endpoint == "screenshot" then
      var options := Field(body, "options");
      if options.Obj? then Some(Screenshot(options.fields)) else None
    else if endpoint == "har" then
      if body.Obj? then Some(Har) else None
    else if endpoint == "fill_form" then
      if body.Obj? then Some(FillForm(Field(body, "inputMapping"), Field(body, "submitButton")))
      else None
    else if endpoint == "recaptcha_solver" then
      var solve := Field(body, "solve_recaptcha");
      var close := Field(body, "close_on_empty");
      if solve.Bool? && close.Bool? then
        Some(RecaptchaSolver(solve.b, close.b, Field(body, "navigationOptions"), Field(body, "waitOptions")))
      else None
    else if endpoint == "action" then
      if body.Str? then Some(CustomJsAction(body.s)) else None
    else if endpoint == "compose" then
      if body.Obj? && "actions" in body.fields && body.fields["actions"].Arr? then
        match DecodeSteps(body.fields["actions"].items)
        case Some(actions) => Some(Compose(actions))
        case None => None
      else None
    else if body.Obj? then
      Some(Extension(endpoint, body.fields))
    else None
  }

  /** Decodes the step list of a Compose payload. */
  function DecodeSteps(steps: seq<Json>): (r: Option<seq<Action>>)
    decreases steps, 0
  {
    if steps == [] then Some([])
    else
      var step := steps[0];
      if step.Obj? && "endpoint" in step.fields && step.fields["endpoint"].Str? && "body" in step.fields then
        match Decode(step.fields["endpoint"].s, step.fields["body"])
        case None => None
        case Some(a) =>
          match DecodeSteps(steps[1..])
          case None => None
          case Some(rest) => Some([a] + rest)
      else None
  }

  /** Actions whose endpoint tags are unambiguous: an extension action must
      not reuse a catalog tag. */
  predicate Distinguishable(a: Action) {
    match a
    case Extension(name, _) => name !in CatalogTags
    case Compose(actions) => forall i :: 0 <= i < |actions| ==> Distinguishable(actions[i])
    case _ => true
  }

  /** The backend recovers every action from its endpoint and payload. */
  lemma {:induction false} DecodePayload(a: Action)
    requires Distinguishable(a)
    ensures Decode(Endpoint(a), Payload(a)) == Some(a)
    decreases a, 1
  {
    match a
    case Compose(actions) =>
      DecodeEncodedSteps(actions);
    case Screenshot(options) =>
      assert Field(Payload(a), "options") == Obj(options);
    case _ =>
  }

  lemma {:induction false} DecodeEncodedSteps(actions: seq<Action>)
    requires forall i :: 0 <= i < |actions| ==> Distinguishable(actions[i])
    ensures DecodeSteps(EncodeSteps(actions)) == Some(actions)
    decreases actions, 0
  {
    if actions != [] {
      var steps := EncodeSteps(actions);
      DecodePayload(actions[0]);
      assert steps[1..] == EncodeSteps(actions[1..]);
      DecodeEncodedSteps(actions[1..]);
      assert [actions[0]] + actions[1..] == actions;
    }
  }

  /** Two distinguishable actions with the same endpoint and payload are
      the same action. */
  lemma PayloadInjective(a: Action, b: Action)
    requires Distinguishable(a) && Distinguishable(b)
    requires Endpoint(a) == Endpoint(b) && Payload(a) == Payload(b)
    ensures a == b
  {
    DecodePayload(a);
    DecodePayload(b);
  }

  // ---------------------------------------------------------------------
  // Compose

  /** No action in the sequence is itself a Compose. */
  predicate Flat(actions: seq<Action>) {
    forall i :: 0 <= i < |actions| ==> !actions[i].Compose?
  }

  /** The flattening of Compose's arguments: a Compose argument contributes
      its actions, any other argument contributes itself. */
  function Flatten(args: seq<Action>): seq<Action> {
    if args == [] then []
    else (if args[0].Compose? then args[0].actions else [args[0]]) + Flatten(args[1..])
  }

  /** `Compose(*args)`: fails when flattening leaves no action. */
  function MakeCompose(args: seq<Action>): (r: Result<Action>)
    ensures r.Ok? ==> r.value.Compose? && r.value.actions == Flatten(args)
  {
    var actions := Flatten(args);
    if actions == [] then Err(ValueError("No actions provided in `Compose`.")) else Ok(Compose(actions))
  }

  /** An action as the catalog's constructors can build it: a Compose holds a
      non-empty flat sequence of such actions. */
  predicate Built(a: Action) {
    match a
    case Compose(actions) =>
      actions != [] && Flat(actions) && forall i :: 0 <= i < |actions| ==> Built(actions[i])
    case _ => true
  }

  lemma {:induction false} FlattenAppend(xs: seq<Action>, ys: seq<Action>)
    ensures Flatten(xs + ys) == Flatten(xs) + Flatten(ys)
  {
    if xs == [] {
      assert xs + ys == ys;
    } else {
      assert (xs + ys)[1..] == xs[1..] + ys;
      FlattenAppend(xs[1..], ys);
    }
  }

  /** Flattening leaves a flat sequence unchanged. */
  lemma {:induction false} FlattenFlat(args: seq<Action>)
    requires Flat(args)
    ensures Flatten(args) == args
  {
    if args != [] {
      FlattenFlat(args[1..]);
    }
  }

  /** Elements of the flattening are the non-Compose arguments and the
      actions of the Compose arguments; with built arguments, none is a
      Compose. */
  lemma {:induction false} FlattenMembers(args: seq<Action>)
    ensures forall x :: x in Flatten(args) <==>
      exists i :: 0 <= i < |args| && ((!args[i].Compose? && x == args[i]) || (args[i].Compose? && x in args[i].actions))
    ensures (forall i :: 0 <= i < |args| ==> Built(args[i])) ==> Flat(Flatten(args))
  {
    if args != [] {
      FlattenMembers(args[1..]);
      var head := if args[0].Compose? then args[0].actions else [args[0]];
      assert Flatten(args) == head + Flatten(args[1..]);
      forall x
        ensures x in Flatten(args) <==>
          exists i :: 0 <= i < |args| && ((!args[i].Compose? && x == args[i]) || (args[i].Compose? && x in args[i].actions))
      {
        if x in Flatten(args[1..]) {
          var j :| 0 <= j < |args[1..]| && ((!args[1..][j].Compose? && x == args[1..][j]) || (args[1..][j].Compose? && x in args[1..][j].actions));
          assert args[j + 1] == args[1..][j];
        }
        if exists i :: 0 <= i < |args| && ((!args[i].Compose? && x == args[i]) || (args[i].Compose? && x in args[i].actions)) {
          var i :| 0 <= i < |args| && ((!args[i].Compose? && x == args[i]) || (args[i].Compose? && x in args[i].actions));
          if i > 0 {
            assert args[1..][i - 1] == args[i];
          }
        }
      }
      if forall i :: 0 <= i < |args| ==> Built(args[i]) {
        assert forall i :: 0 <= i < |args[1..]| ==> Built(args[1..][i]) by {
          forall i | 0 <= i < |args[1..]| ensures Built(args[1..][i]) {
            assert args[1..][i] == args[i + 1];
          }
        }
        assert Built(args[0]);
      }
    }
  }

  /** Compose fails exactly when every argument is an empty Compose (in
      particular, when there is no argument). */
  lemma {:induction false} MakeComposeFails(args: seq<Action>)
    ensures MakeCompose(args).Err? <==>
      forall i :: 0 <= i < |args| ==> args[i].Compose? && args[i].actions == []
  {
    if args != [] {
      MakeComposeFails(args[1..]);
      assert Flatten(args) == (if args[0].Compose? then args[0].actions else [args[0]]) + Flatten(args[1..]);
      if forall i :: 0 <= i < |args[1..]| ==> args[1..][i].Compose? && args[1..][i].actions == [] {
        assert forall i :: 1 <= i < |args| ==> args[i] == args[1..][i - 1];
      } else {
        var i :| 0 <= i < |args[1..]| && !(args[1..][i].Compose? && args[1..][i].actions == []);
        assert args[i + 1] == args[1..][i];
      }
    }
  }

  /** Nesting a Compose is the same as listing its arguments in place:
      Compose(Compose(a, b), c) has the actions of Compose(a, b, c). */
  lemma ComposeAssociative(xs: seq<Action>, ys: seq<Action>)
    requires MakeCompose(xs).Ok?
    ensures MakeCompose([MakeCompose(xs).value] + ys) == MakeCompose(xs + ys)
  {
    FlattenAppend(xs, ys);
    FlattenAppend([MakeCompose(xs).value], ys);
  }

  /** A Compose built from built arguments is itself built. */
  lemma MakeComposeBuilt(args: seq<Action>)
    requires forall i :: 0 <= i < |args| ==> Built(args[i])
    requires MakeCompose(args).Ok?
    ensures Built(MakeCompose(args).value)
  {
    FlattenMembers(args);
    var actions := Flatten(args);
    forall i | 0 <= i < |actions| ensures Built(actions[i]) {
      var x := actions[i];
      assert x in actions;
      var j :| 0 <= j < |args| && ((!args[j].Compose? && x == args[j]) || (args[j].Compose? && x in args[j].actions));
      assert Built(args[j]);
    }
  }

  /** `Screenshot(options, **kwargs)`: the given options (or an empty
      dictionary when they are falsy), updated with the keyword options. A
      truthy non-dictionary has no `update`. */
  function MakeScreenshot(options: Json, kwargs: map<string, Json>): (r: Result<Action>)
    ensures r.Err? <==> Truthy(options) && !options.Obj?
    ensures r.Ok? ==> r.value.Screenshot?
    ensures r.Ok? ==> forall k :: k in kwargs ==> k in r.value.options && r.value.options[k] == kwargs[k]
    ensures r.Ok? && options.Obj? ==>
      forall k :: k in options.fields && k !in kwargs ==> k in r.value.options && r.value.options[k] == options.fields[k]
    ensures r.Ok? ==> r.value.options.Keys == kwargs.Keys + (if options.Obj? then options.fields.Keys else {})
  {
    if !Truthy(options) then Ok(Screenshot(map[] + kwargs))
    else if options.Obj? then Ok(Screenshot(options.fields + kwargs))
    else Err(AttributeError("update"))
  }

  /** `RecaptchaSolver()` with its default arguments. */
  const DefaultRecaptchaSolver := RecaptchaSolver(true, false, Null, Null)
}
