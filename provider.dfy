/**
 * The AI-provider side of the bot: the price table and the cost of a chat
 * round or an image request, the three tools the model may call, and the
 * tool-call loop of `get_chat_response`. The provider itself is an oracle:
 * its successive responses arrive as a sequence, and an image request's
 * outcome as a parameter. Every debit goes to the usage ledger with
 * `INITIAL_DABLOONS` as the opening balance of a new account.
 */
module Provider {
  import opened Wrappers
  import opened Text
  import opened Config
  import opened Ledger
  import opened Db
  import Talk

  // ---------------------------------------------------------------------
  // Prices
  // ---------------------------------------------------------------------

  /**
   * Dollars per token (`input`, `output`; the table quotes them per million
   * tokens) and per image (by quality or by size).
   */
  const Pricing: map<string, map<string, real>> := map[
    "gpt-4.1" := map["input" := 2.00 / 1000000.0, "output" := 8.00 / 1000000.0],
    "gpt-4.1-mini" := map["input" := 0.4 / 1000000.0, "output" := 1.6 / 1000000.0],
    "gpt-4.1-nano" := map["input" := 0.1 / 1000000.0, "output" := 0.4 / 1000000.0],
    "gpt-4.5-preview" := map["input" := 75.00 / 1000000.0, "output" := 150.00 / 1000000.0],
    "gpt-4o" := map["input" := 2.5 / 1000000.0, "output" := 10.0 / 1000000.0],
    "gpt-4o-mini" := map["input" := 0.15 / 1000000.0, "output" := 0.6 / 1000000.0],
    "o1" := map["input" := 15.0 / 1000000.0, "output" := 60.0 / 1000000.0],
    "o1-pro" := map["input" := 150.0 / 1000000.0, "output" := 600.0 / 1000000.0],
    "o3" := map["input" := 10.0 / 1000000.0, "output" := 40.0 / 1000000.0],
    "o4-mini" := map["input" := 1.10 / 1000000.0, "output" := 4.40 / 1000000.0],
    "o3-mini" := map["input" := 1.10 / 1000000.0, "output" := 4.40 / 1000000.0],
    "o1-mini" := map["input" := 1.10 / 1000000.0, "output" := 4.40 / 1000000.0],
    "gpt-image-1" := map["input" := 5.00 / 1000000.0, "medium" := 0.042, "high" := 0.167],
    "gpt-4o-mini-tts" := map["input" := 12.00 / 1000000.0],
    "tts-1" := map["input" := 15.0 / 1000000.0],
    "gpt-4" := map["input" := 30.0 / 1000000.0, "output" := 60.00 / 1000000.0],
    "dall-e-2" := map["1024x1024" := 0.02],
    "dall-e-3" := map["1024x1024" := 0.04, "1792x1024" := 0.08, "1024x1792" := 0.08]
  ]

  /** Why a provider interaction ended without a result. */
  datatype ProviderError =
    | UnknownPrice(key: string)            // `pricing[model][field]` raised KeyError on `key`
    | BadArguments(tool: string)       // the tool's keyword arguments did not match its parameters
    | MalformedArguments(callId: string)   // the call's arguments were not JSON
    | SingleImageOnly                      // dall-e-3 asked for more than one image
    | ProviderFailed                       // the provider request itself raised

  /** `pricing[model][field]`, failing on the first key that is missing. */
  function Rate(model: string, field: string): (r: Result<real, ProviderError>)
    ensures r.Ok? <==> model in Pricing && field in Pricing[model]
    ensures r.Ok? ==> r.value == Pricing[model][field] && r.value >= 0.0
    ensures model !in Pricing ==> r == Err(UnknownPrice(model))
    ensures model in Pricing && field !in Pricing[model] ==> r == Err(UnknownPrice(field))
  {
    if model !in Pricing then Err(UnknownPrice(model))
    else if field !in Pricing[model] then Err(UnknownPrice(field))
    else PricesNonNegative(model, field); Ok(Pricing[model][field])
  }

  lemma MulNonNegative(a: real, b: real)
    requires a >= 0.0 && b >= 0.0
    ensures a * b >= 0.0
  {
  }

  /** No price in the table is negative. */
  lemma PricesNonNegative(model: string, field: string)
    requires model in Pricing && field in Pricing[model]
    ensures Pricing[model][field] >= 0.0
  {
  }

  // ---------------------------------------------------------------------
  // The three tools
  // ---------------------------------------------------------------------

  /** The part of the store the tools read and write. */
  datatype Profiles = Profiles(names: map<string, string>, descriptions: map<string, string>)

  /** The dict a tool returns, whose `str` goes back to the model. */
  datatype ToolResult =
    | Updated(message: string)          // {"status": "success", "message": ...}
    | NameFound(name: string)           // {"status": "success", "name": ...}
    | BadUserId(userId: string)         // {"status": "error", ...}: `int(user_id)` raised
    | UnknownFunction(name: string)     // {"error": "Unknown function call: <name>"}

  const KnownTools: set<string> := {"update_user_memory", "update_user_name", "get_user_name"}

  /** The keyword parameters each tool declares. */
  function Parameters(name: string): set<string> {
    if name == "update_user_memory" then {"user_id", "memory"}
    else if name == "update_user_name" then {"user_id", "name"}
    else {"user_id"}
  }

  /**
   * `call_function(name, args)`. Calling a known tool with keyword arguments
   * other than its parameters raises out of the dispatch; an id that `int`
   * cannot read becomes an error dict; an unknown tool name becomes an error
   * dict and writes nothing.
   */
  function CallFunction(p: Profiles, name: string, args: map<string, string>)
    : (r: Result<(ToolResult, Profiles), ProviderError>)
    ensures name !in KnownTools ==> r == Ok((UnknownFunction(name), p))
    ensures r.Err? <==> name in KnownTools && args.Keys != Parameters(name)
    ensures r.Err? ==> r.error == BadArguments(name)
    ensures r.Ok? && r.value.0.BadUserId? ==> r.value.1 == p && ParseInt(args["user_id"]).None?
    ensures name == "get_user_name" && r.Ok? ==> r.value.1 == p
    ensures r.Ok? && r.value.1 != p ==>
      && name in {"update_user_memory", "update_user_name"}
      && ParseInt(args["user_id"]).Some?
  {
    if name == "update_user_memory" then
      if args.Keys != {"user_id", "memory"} then Err(BadArguments(name))
      else
        var uid := args["user_id"];
        var memory := args["memory"];
        match ParseInt(uid)
        case None => Ok((BadUserId(uid), p))
        case Some(id) =>
          Ok((Updated("Memory for user " + uid + " updated successfully to '" + memory + "'."),
              p.(descriptions := p.descriptions[IntToString(id) := memory])))
    else if name == "update_user_name" then
      if args.Keys != {"user_id", "name"} then Err(BadArguments(name))
      else
        var uid := args["user_id"];
        var newName := args["name"];
        match ParseInt(uid)
        case None => Ok((BadUserId(uid), p))
        case Some(id) =>
          Ok((Updated("Name for user " + uid + " updated successfully to '" + newName + "'."),
              p.(names := p.names[IntToString(id) := newName])))
    else if name == "get_user_name" then
      if args.Keys != {"user_id"} then Err(BadArguments(name))
      else
        var uid := args["user_id"];
        match ParseInt(uid)
        case None => Ok((BadUserId(uid), p))
        case Some(id) => Ok((NameFound(StoredName(p.names, IntToString(id)).GetOr("User")), p))
    else Ok((UnknownFunction(name), p))
  }

  /** `get_user_name` for an id that has no stored name answers "User". */
  lemma GetUserNameDefault(p: Profiles, uid: string)
    requires ParseInt(uid).Some?
    requires StoredName(p.names, IntToString(ParseInt(uid).value)).None?
    ensures CallFunction(p, "get_user_name", map["user_id" := uid]) == Ok((NameFound("User"), p))
  {
    assert map["user_id" := uid].Keys == {"user_id"};
  }

  /**
   * A name the model stores is the name it reads back, under any spelling
   * of the same integer id; storing an empty name makes it read back "User".
   */
  lemma {:induction false} NameRoundTrip(p: Profiles, uid: string, other: string, newName: string)
    requires ParseInt(uid).Some? && ParseInt(other) == ParseInt(uid)
    ensures var stored := CallFunction(p, "update_user_name", map["user_id" := uid, "name" := newName]);
      && stored.Ok?
      && CallFunction(stored.value.1, "get_user_name", map["user_id" := other])
         == Ok((NameFound(if newName == "" then "User" else newName), stored.value.1))
  {
    var setArgs := map["user_id" := uid, "name" := newName];
    assert setArgs.Keys == {"user_id", "name"} && setArgs["user_id"] == uid && setArgs["name"] == newName;
    var key := IntToString(ParseInt(uid).value);
    var after := p.(names := p.names[key := newName]);
    var stored := CallFunction(p, "update_user_name", setArgs);
    assert stored.Ok? && stored.value.1 == after;
    var getArgs := map["user_id" := other];
    assert getArgs.Keys == {"user_id"} && getArgs["user_id"] == other;
    assert StoredName(after.names, key).GetOr("User") == if newName == "" then "User" else newName;
  }

  /** A memory update writes exactly one description and no name. */
  lemma {:induction false} MemoryUpdateFootprint(p: Profiles, uid: string, memory: string)
    requires ParseInt(uid).Some?
    ensures var r := CallFunction(p, "update_user_memory", map["user_id" := uid, "memory" := memory]);
      && r.Ok? && r.value.0.Updated?
      && r.value.1.names == p.names
      && r.value.1.descriptions == p.descriptions[IntToString(ParseInt(uid).value) := memory]
  {
    assert map["user_id" := uid, "memory" := memory].Keys == {"user_id", "memory"};
  }

  // ---------------------------------------------------------------------
  // The tool-call loop
  // ---------------------------------------------------------------------

  /** One element of `response.output`. */
  datatype Output =
    | FunctionCall(name: string, arguments: Option<map<string, string>>, callId: string)
    | ImageGeneration(result: string)
    | OtherOutput

  /** What one `responses.create` call returns. */
  datatype Response = Response(promptTokens: nat, completionTokens: nat, outputs: seq<Output>, outputText: string)

  /** An entry of the `messages` list: a prompt turn or a tool's answer. */
  datatype Item = Said(turn: Talk.Turn) | CallOutput(callId: string, output: ToolResult)

  /** What `get_chat_response` hands back; `image` is the first generated image. */
  datatype ChatOutcome = Reply(text: string, image: Option<string>) | Failure(error: ProviderError) | NoMoreResponses

  /** The state a conversation threads through its rounds. */
  datatype Conversation = Conversation(usage: map<nat, Account>, profiles: Profiles, messages: seq<Item>)

  /** Input rate × prompt tokens + output rate × completion tokens. */
  function Charge(input: real, output: real, r: Response): real {
    input * (r.promptTokens as real) + output * (r.completionTokens as real)
  }

  /** The cost of one round, at the model's input and output rates; a model without both rates fails. */
  function RoundCost(model: string, r: Response): (c: Result<real, ProviderError>)
    ensures c.Ok? <==> Rate(model, "input").Ok? && Rate(model, "output").Ok?
    ensures c.Ok? ==> c.value == Charge(Rate(model, "input").value, Rate(model, "output").value, r)
  {
    match Rate(model, "input")
    case Err(e) => Err(e)
    case Ok(i) =>
      match Rate(model, "output")
      case Err(e) => Err(e)
      case Ok(o) => Ok(Charge(i, o, r))
  }

  /** No round costs a negative amount. */
  lemma RoundCostNonNegative(model: string, r: Response)
    requires RoundCost(model, r).Ok?
    ensures RoundCost(model, r).value >= 0.0
  {
    var i, o := Rate(model, "input").value, Rate(model, "output").value;
    MulNonNegative(i, r.promptTokens as real);
    MulNonNegative(o, r.completionTokens as real);
    assert Charge(i, o, r) >= 0.0;
  }

  predicate HasFunctionCall(outs: seq<Output>) {
    exists i :: 0 <= i < |outs| && outs[i].FunctionCall?
  }

  /** The result of the first image-generation output, if any. */
  function FirstImage(outs: seq<Output>): (r: Option<string>)
    ensures r.None? <==> forall i :: 0 <= i < |outs| ==> !outs[i].ImageGeneration?
    ensures r.Some? ==> exists i :: 0 <= i < |outs| && outs[i] == ImageGeneration(r.value)
                                 && forall j :: 0 <= j < i ==> !outs[j].ImageGeneration?
    decreases |outs|
  {
    if |outs| == 0 then None
    else if outs[0].ImageGeneration? then Some(outs[0].result)
    else
      var r := FirstImage(outs[1..]);
      assert forall i :: 1 <= i < |outs| ==> outs[i] == outs[1..][i - 1];
      if r.Some? then
        var i :| 0 <= i < |outs[1..]| && outs[1..][i] == ImageGeneration(r.value)
          && forall j :: 0 <= j < i ==> !outs[1..][j].ImageGeneration?;
        assert outs[i + 1] == ImageGeneration(r.value);
        r
      else r
  }

  /** Handling one output of a response: only function calls do anything. */
  function CallStep(c: Conversation, o: Output): (Conversation, Option<ProviderError>) {
    match o
    case FunctionCall(name, arguments, callId) =>
      if arguments.None? then (c, Some(MalformedArguments(callId)))
      else
        var r := CallFunction(c.profiles, name, arguments.value);
        if r.Err? then (c, Some(r.error))
        else (c.(profiles := r.value.1, messages := c.messages + [CallOutput(callId, r.value.0)]), None)
    case _ => (c, None)
  }

  /** The `for tool_call in response.output` loop over the first `|outs|` outputs. */
  function ProcessCalls(c: Conversation, outs: seq<Output>): (Conversation, Option<ProviderError>)
    decreases |outs|
  {
    if |outs| == 0 then (c, None)
    else
      var before := ProcessCalls(c, outs[..|outs| - 1]);
      if before.1.Some? then before else CallStep(before.0, outs[|outs| - 1])
  }

  /** How one round ends: the conversation is over, or the next response is read. */
  datatype RoundResult =
    | Finished(outcome: ChatOutcome, after: Conversation, charged: seq<real>)
    | Next(after: Conversation, cost: real)

  /**
   * One pass of the `while True` loop: the round is priced and debited; a
   * response without a function call ends the conversation with its text;
   * otherwise every call is answered, and a call that raises ends it too.
   */
  function Round(c: Conversation, model: string, user: nat, r: Response): RoundResult {
    match RoundCost(model, r)
    case Err(e) => Finished(Failure(e), c, [])
    case Ok(cost) =>
      var debited := c.(usage := DebitUser(c.usage, user, cost, InitialDabloons));
      if !HasFunctionCall(r.outputs) then Finished(Reply(r.outputText, FirstImage(r.outputs)), debited, [cost])
      else
        var answered := ProcessCalls(debited, r.outputs);
        if answered.1.Some? then Finished(Failure(answered.1.value), answered.0, [cost])
        else Next(answered.0, cost)
  }

  /**
   * The whole loop over the responses the provider gives in turn, with the
   * cost debited in each round read.
   */
  function Converse(c: Conversation, model: string, user: nat, rs: seq<Response>)
    : (ChatOutcome, Conversation, seq<real>)
    decreases |rs|
  {
    if |rs| == 0 then (NoMoreResponses, c, [])
    else
      match Round(c, model, user, rs[0])
      case Finished(o, after, charged) => (o, after, charged)
      case Next(after, cost) =>
        var rest := Converse(after, model, user, rs[1..]);
        (rest.0, rest.1, [cost] + rest.2)
  }

  /** The call ids of the tool answers among `items`, in order. */
  function AnsweredIds(items: seq<Item>): seq<string>
    decreases |items|
  {
    if |items| == 0 then []
    else
      var last := items[|items| - 1];
      AnsweredIds(items[..|items| - 1]) + (if last.CallOutput? then [last.callId] else [])
  }

  /** The call ids of the function calls among `outs`, in order. */
  function CallIds(outs: seq<Output>): seq<string>
    decreases |outs|
  {
    if |outs| == 0 then []
    else
      var last := outs[|outs| - 1];
      CallIds(outs[..|outs| - 1]) + (if last.FunctionCall? then [last.callId] else [])
  }

  /**
   * Answering the calls of a response appends exactly one tool answer per
   * function call, in order and carrying that call's id, and nothing else;
   * the ledger is not touched.
   */
  lemma {:induction false} ProcessCallsAnswers(c: Conversation, outs: seq<Output>)
    requires ProcessCalls(c, outs).1.None?
    ensures var after := ProcessCalls(c, outs).0;
      && after.usage == c.usage
      && |c.messages| <= |after.messages| && after.messages[..|c.messages|] == c.messages
      && (forall i :: |c.messages| <= i < |after.messages| ==> after.messages[i].CallOutput?)
      && AnsweredIds(after.messages[|c.messages|..]) == CallIds(outs)
    decreases |outs|
  {
    ProcessCallsUsage(c, outs);
    ProcessCallsPrefix(c, outs);
    if |outs| > 0 {
      var prefix := outs[..|outs| - 1];
      ProcessCallsAnswers(c, prefix);
      var mid := ProcessCalls(c, prefix).0;
      var after := ProcessCalls(c, outs).0;
      var last := outs[|outs| - 1];
      assert after == CallStep(mid, last).0;
      CallStepAnswer(mid, last);
      if last.FunctionCall? {
        var x := after.messages[|mid.messages|];
        assert after.messages == mid.messages + [x];
        var added := after.messages[|c.messages|..];
        assert added == mid.messages[|c.messages|..] + [x];
        assert added[..|added| - 1] == mid.messages[|c.messages|..];
      }
    } else {
      assert c.messages[|c.messages|..] == [];
    }
  }

  /** A function call that succeeds appends one answer carrying its id; any other output changes nothing. */
  lemma CallStepAnswer(c: Conversation, o: Output)
    requires CallStep(c, o).1.None?
    ensures var next := CallStep(c, o).0;
      if o.FunctionCall? then
        && |next.messages| == |c.messages| + 1 && next.messages[..|c.messages|] == c.messages
        && next.messages[|c.messages|].CallOutput? && next.messages[|c.messages|].callId == o.callId
      else next == c
  {
  }

  /** Once a call fails, the rest of the response's outputs are not looked at. */
  lemma {:induction false} ProcessCallsStops(c: Conversation, outs: seq<Output>, j: nat)
    requires j <= |outs| && ProcessCalls(c, outs[..j]).1.Some?
    ensures ProcessCalls(c, outs) == ProcessCalls(c, outs[..j])
    decreases |outs| - j
  {
    if j < |outs| {
      assert outs[..j + 1][..j] == outs[..j];
      ProcessCallsStops(c, outs, j + 1);
    } else {
      assert outs[..j] == outs;
    }
  }

  /**
   * One debit per round read: the costs are those of the first responses,
   * and the ledger afterwards is the ledger before with those costs debited
   * in order.
   */
  function DebitRounds(usage: map<nat, Account>, user: nat, costs: seq<real>): map<nat, Account>
    decreases |costs|
  {
    if |costs| == 0 then usage else DebitRounds(DebitUser(usage, user, costs[0], InitialDabloons), user, costs[1..])
  }

  /** A round debits its own cost at most once and, when it goes on, exactly once. */
  lemma RoundDebits(c: Conversation, model: string, user: nat, r: Response)
    ensures var step := Round(c, model, user, r);
      && (step.Next? ==>
            && RoundCost(model, r) == Ok(step.cost) && HasFunctionCall(r.outputs)
            && step.after.usage == DebitUser(c.usage, user, step.cost, InitialDabloons))
      && (step.Finished? ==>
            && |step.charged| <= 1
            && (forall i :: 0 <= i < |step.charged| ==> RoundCost(model, r) == Ok(step.charged[i]))
            && step.after.usage == DebitRounds(c.usage, user, step.charged))
      && (step.Finished? && step.outcome.Reply? ==>
            && step.charged == [RoundCost(model, r).value]
            && step.outcome == Reply(r.outputText, FirstImage(r.outputs)) && !HasFunctionCall(r.outputs))
  {
    if RoundCost(model, r).Ok? {
      var cost := RoundCost(model, r).value;
      var debited := c.(usage := DebitUser(c.usage, user, cost, InitialDabloons));
      ProcessCallsUsage(debited, r.outputs);
      assert [cost][1..] == [];
    }
  }

  lemma {:induction false} ConverseDebits(c: Conversation, model: string, user: nat, rs: seq<Response>)
    ensures var (_, final, costs) := Converse(c, model, user, rs);
      && |costs| <= |rs|
      && (forall i :: 0 <= i < |costs| ==> RoundCost(model, rs[i]) == Ok(costs[i]))
      && final.usage == DebitRounds(c.usage, user, costs)
    decreases |rs|
  {
    if |rs| > 0 {
      RoundDebits(c, model, user, rs[0]);
      var step := Round(c, model, user, rs[0]);
      if step.Next? {
        ConverseDebits(step.after, model, user, rs[1..]);
        var rest := Converse(step.after, model, user, rs[1..]);
        var costs := [step.cost] + rest.2;
        assert costs[0] == step.cost && costs[1..] == rest.2;
        forall i | 0 < i < |costs| ensures RoundCost(model, rs[i]) == Ok(costs[i]) {
          assert rs[1..][i - 1] == rs[i];
        }
      }
    }
  }

  /** The tool calls never touch the ledger, whether they succeed or not. */
  lemma {:induction false} ProcessCallsUsage(c: Conversation, outs: seq<Output>)
    ensures ProcessCalls(c, outs).0.usage == c.usage
    decreases |outs|
  {
    if |outs| > 0 {
      ProcessCallsUsage(c, outs[..|outs| - 1]);
    }
  }

  /** Debiting rounds one by one from an existing account is `DebitAll` on it. */
  lemma {:induction false} DebitRoundsAccount(usage: map<nat, Account>, user: nat, costs: seq<real>)
    requires user in usage
    ensures var after := DebitRounds(usage, user, costs);
      && after.Keys == usage.Keys
      && after[user] == DebitAll(usage[user], costs)
      && forall v :: v in usage && v != user ==> after[v] == usage[v]
    decreases |costs|
  {
    if |costs| > 0 {
      DebitRoundsAccount(DebitUser(usage, user, costs[0], InitialDabloons), user, costs[1..]);
    }
  }

  /**
   * A conversation debits only its own user, and an account that starts
   * with non-negative balances ends with non-negative balances whose sum has
   * fallen by the total cost (down to zero), while the lifetime total grows
   * by exactly that cost.
   */
  lemma ConverseKeepsBalances(c: Conversation, model: string, user: nat, rs: seq<Response>)
    requires user in c.usage && c.usage[user].usageBalance >= 0.0 && c.usage[user].bankBalance >= 0.0
    ensures var (_, final, costs) := Converse(c, model, user, rs);
      var a := c.usage[user];
      && final.usage.Keys == c.usage.Keys
      && (forall v :: v in c.usage && v != user ==> final.usage[v] == c.usage[v])
      && final.usage[user].usageBalance >= 0.0 && final.usage[user].bankBalance >= 0.0
      && final.usage[user].usageBalance + final.usage[user].bankBalance
         == Max(0.0, a.usageBalance + a.bankBalance - Sum(costs))
      && final.usage[user].totalUsage == a.totalUsage + Sum(costs)
  {
    ConverseDebits(c, model, user, rs);
    var (_, final, costs) := Converse(c, model, user, rs);
    forall i | 0 <= i < |costs| ensures costs[i] >= 0.0 {
      RoundCostNonNegative(model, rs[i]);
    }
    DebitRoundsAccount(c.usage, user, costs);
    DebitAllBalances(c.usage[user], costs);
  }

  /**
   * A reply carries the text of the last response read and that response
   * has no function call; every earlier response read had one.
   */
  lemma {:induction false} ConverseReply(c: Conversation, model: string, user: nat, rs: seq<Response>)
    ensures var (o, _, costs) := Converse(c, model, user, rs);
      o.Reply? ==>
        && 1 <= |costs| <= |rs|
        && o.text == rs[|costs| - 1].outputText
        && o.image == FirstImage(rs[|costs| - 1].outputs)
        && !HasFunctionCall(rs[|costs| - 1].outputs)
        && forall i :: 0 <= i < |costs| - 1 ==> HasFunctionCall(rs[i].outputs)
    decreases |rs|
  {
    if |rs| > 0 {
      RoundDebits(c, model, user, rs[0]);
      var step := Round(c, model, user, rs[0]);
      if step.Next? {
        ConverseReply(step.after, model, user, rs[1..]);
        var rest := Converse(step.after, model, user, rs[1..]);
        if rest.0.Reply? {
          var costs := [step.cost] + rest.2;
          assert rs[1..][|rest.2| - 1] == rs[|costs| - 1];
          forall i | 0 <= i < |costs| - 1 ensures HasFunctionCall(rs[i].outputs) {
            if i > 0 {
              assert rs[1..][i - 1] == rs[i];
            }
          }
        }
      }
    }
  }

  /** A round keeps the messages it was given at the front and adds only tool answers. */
  lemma RoundMessages(c: Conversation, model: string, user: nat, r: Response)
    ensures var after := Round(c, model, user, r).after;
      && |c.messages| <= |after.messages| && after.messages[..|c.messages|] == c.messages
      && forall i :: |c.messages| <= i < |after.messages| ==> after.messages[i].CallOutput?
  {
    if RoundCost(model, r).Ok? {
      var cost := RoundCost(model, r).value;
      ProcessCallsPrefix(c.(usage := DebitUser(c.usage, user, cost, InitialDabloons)), r.outputs);
    }
    assert c.messages[..|c.messages|] == c.messages;
  }

  /** The caller's messages stay at the front of the list, which only grows by tool answers. */
  lemma {:induction false} ConverseMessages(c: Conversation, model: string, user: nat, rs: seq<Response>)
    ensures var final := Converse(c, model, user, rs).1;
      && |c.messages| <= |final.messages| && final.messages[..|c.messages|] == c.messages
      && forall i :: |c.messages| <= i < |final.messages| ==> final.messages[i].CallOutput?
    decreases |rs|
  {
    if |rs| > 0 {
      RoundMessages(c, model, user, rs[0]);
      var step := Round(c, model, user, rs[0]);
      if step.Next? {
        ConverseMessages(step.after, model, user, rs[1..]);
        var final := Converse(step.after, model, user, rs[1..]).1;
        assert final.messages[..|step.after.messages|][..|c.messages|] == final.messages[..|c.messages|];
      }
    } else {
      assert c.messages[..|c.messages|] == c.messages;
    }
  }

  /** The tool calls of a response, failing or not, only append tool answers. */
  lemma {:induction false} ProcessCallsPrefix(c: Conversation, outs: seq<Output>)
    ensures var after := ProcessCalls(c, outs).0;
      && |c.messages| <= |after.messages| && after.messages[..|c.messages|] == c.messages
      && forall i :: |c.messages| <= i < |after.messages| ==> after.messages[i].CallOutput?
    decreases |outs|
  {
    if |outs| > 0 {
      ProcessCallsPrefix(c, outs[..|outs| - 1]);
      var mid := ProcessCalls(c, outs[..|outs| - 1]).0;
      var after := ProcessCalls(c, outs).0;
      if after != mid {
        assert after.messages[..|mid.messages|] == mid.messages;
        assert after.messages[..|c.messages|] == mid.messages[..|c.messages|];
      }
    } else {
      assert c.messages[..|c.messages|] == c.messages;
    }
  }

  // ---------------------------------------------------------------------
  // The loop, in place
  // ---------------------------------------------------------------------

  /** `call_function` applied to the store. */
  method InvokeTool(db: Database, name: string, args: map<string, string>)
    returns (r: Result<ToolResult, ProviderError>)
    modifies db`names, db`descriptions
    ensures var f := CallFunction(Profiles(old(db.names), old(db.descriptions)), name, args);
      && (f.Err? ==> r == Err(f.error) && db.names == old(db.names) && db.descriptions == old(db.descriptions))
      && (f.Ok? ==> r == Ok(f.value.0) && Profiles(db.names, db.descriptions) == f.value.1)
  {
    if name !in KnownTools {
      return Ok(UnknownFunction(name));
    }
    if args.Keys != Parameters(name) {
      return Err(BadArguments(name));
    }
    var uid := args["user_id"];
    var id := ParseInt(uid);
    if id.None? {
      return Ok(BadUserId(uid));
    }
    var key := IntToString(id.value);
    if name == "update_user_memory" {
      db.SetDescription(key, args["memory"]);
      r := Ok(Updated("Memory for user " + uid + " updated successfully to '" + args["memory"] + "'."));
    } else if name == "update_user_name" {
      db.SetName(key, args["name"]);
      r := Ok(Updated("Name for user " + uid + " updated successfully to '" + args["name"] + "'."));
    } else {
      var stored := db.GetName(key);
      r := Ok(NameFound(stored.GetOr("User")));
    }
  }

  /** The inner loop: answers the function calls of one response. */
  method AnswerCalls(db: Database, messages: seq<Item>, outs: seq<Output>)
    returns (after: seq<Item>, err: Option<ProviderError>)
    modifies db`names, db`descriptions
    ensures var (c, e) := ProcessCalls(Conversation(db.usage, Profiles(old(db.names), old(db.descriptions)), messages), outs);
      && after == c.messages && err == e
      && db.names == c.profiles.names && db.descriptions == c.profiles.descriptions
  {
    ghost var start := Conversation(db.usage, Profiles(db.names, db.descriptions), messages);
    after := messages;
    err := None;
    var j := 0;
    while j < |outs|
      invariant 0 <= j <= |outs|
      invariant (Conversation(db.usage, Profiles(db.names, db.descriptions), after), None) == ProcessCalls(start, outs[..j])
    {
      assert outs[..j + 1][..j] == outs[..j];
      var o := outs[j];
      if o.FunctionCall? {
        if o.arguments.None? {
          err := Some(MalformedArguments(o.callId));
          ProcessCallsStops(start, outs, j + 1);
          return;
        }
        var result := InvokeTool(db, o.name, o.arguments.value);
        if result.Err? {
          err := Some(result.error);
          ProcessCallsStops(start, outs, j + 1);
          return;
        }
        after := after + [CallOutput(o.callId, result.value)];
      }
      j := j + 1;
    }
    assert outs[..j] == outs;
  }

  /** One pass of the loop against the store; `finished` is the outcome when the conversation ends here. */
  method PlayRound(db: Database, transcript: seq<Item>, user: nat, model: string, response: Response)
    returns (finished: Option<ChatOutcome>, after: seq<Item>)
    modifies db`usage, db`names, db`descriptions
    ensures var step := Round(Conversation(old(db.usage), Profiles(old(db.names), old(db.descriptions)), transcript),
                              model, user, response);
      && step.after == Conversation(db.usage, Profiles(db.names, db.descriptions), after)
      && (step.Finished? <==> finished.Some?)
      && (step.Finished? ==> finished.value == step.outcome)
  {
    after := transcript;
    var cost := RoundCost(model, response);
    if cost.Err? {
      return Some(Failure(cost.error)), after;
    }
    db.UpdateUsage(user, cost.value, InitialDabloons);
    if !HasFunctionCall(response.outputs) {
      return Some(Reply(response.outputText, FirstImage(response.outputs))), after;
    }
    ghost var debited := Conversation(db.usage, Profiles(db.names, db.descriptions), after);
    var err;
    after, err := AnswerCalls(db, after, response.outputs);
    ProcessCallsUsage(debited, response.outputs);
    if err.Some? {
      return Some(Failure(err.value)), after;
    }
    finished := None;
  }

  /**
   * `get_chat_response(messages, user_id, model)` against the responses the
   * provider gives in turn; `messages` is the caller's list, returned with
   * the tool answers appended.
   */
  method GetChatResponse(db: Database, messages: seq<Item>, user: nat, model: string, responses: seq<Response>)
    returns (outcome: ChatOutcome, transcript: seq<Item>)
    modifies db`usage, db`names, db`descriptions
    ensures var (o, c, _) := Converse(Conversation(old(db.usage), Profiles(old(db.names), old(db.descriptions)), messages),
                                      model, user, responses);
      && outcome == o && transcript == c.messages
      && db.usage == c.usage && db.names == c.profiles.names && db.descriptions == c.profiles.descriptions
  {
    ghost var whole := Converse(Conversation(db.usage, Profiles(db.names, db.descriptions), messages), model, user, responses);
    ghost var spent: seq<real> := [];
    transcript := messages;
    var k := 0;
    assert responses[0..] == responses;
    assert whole.2 == spent + whole.2;
    while k < |responses|
      invariant 0 <= k <= |responses|
      invariant var rest := Converse(Conversation(db.usage, Profiles(db.names, db.descriptions), transcript),
                                     model, user, responses[k..]);
        whole.0 == rest.0 && whole.1 == rest.1 && whole.2 == spent + rest.2
    {
      ghost var here := Conversation(db.usage, Profiles(db.names, db.descriptions), transcript);
      assert responses[k..][0] == responses[k] && responses[k..][1..] == responses[k + 1..];
      ghost var step := Round(here, model, user, responses[k]);
      var finished;
      finished, transcript := PlayRound(db, transcript, user, model, responses[k]);
      if finished.Some? {
        return finished.value, transcript;
      }
      spent := spent + [step.cost];
      k := k + 1;
    }
    outcome := NoMoreResponses;
  }

  // ---------------------------------------------------------------------
  // Images
  // ---------------------------------------------------------------------

  /**
   * Which price an image request is charged by: gpt-image-1 by quality,
   * a model whose name starts with "dall" by size, any other model by none.
   */
  function ImagePriceKey(model: string, size: string, quality: string): (k: Option<string>)
    ensures model == "gpt-image-1" ==> k == Some(quality)
    ensures model != "gpt-image-1" && StartsWith(model, "dall") ==> k == Some(size)
    ensures model != "gpt-image-1" && !StartsWith(model, "dall") ==> k.None?
  {
    if model == "gpt-image-1" then Some(quality)
    else if StartsWith(model, "dall") then Some(size)
    else None
  }

  /**
   * The cost of an image request once the provider has answered: the
   * image's price times the number of images, nothing for a model without
   * image prices, and the lookup's KeyError when the price is missing.
   */
  function ImageCost(model: string, n: int, size: string, quality: string): (r: Result<real, ProviderError>)
    ensures ImagePriceKey(model, size, quality).None? ==> r == Ok(0.0)
    ensures ImagePriceKey(model, size, quality).Some? ==>
      var key := ImagePriceKey(model, size, quality).value;
      && (r.Ok? <==> Rate(model, key).Ok?)
      && (r.Ok? ==> r.value == Rate(model, key).value * (n as real))
      && (r.Err? ==> r == Rate(model, key))
  {
    match ImagePriceKey(model, size, quality)
    case None => Ok(0.0)
    case Some(key) =>
      match Rate(model, key)
      case Err(e) => Err(e)
      case Ok(p) => Ok(p * (n as real))
  }

  /** Asking for no images or more never costs a negative amount. */
  lemma ImageCostNonNegative(model: string, n: int, size: string, quality: string)
    requires n >= 0 && ImageCost(model, n, size, quality).Ok?
    ensures ImageCost(model, n, size, quality).value >= 0.0
  {
    var key := ImagePriceKey(model, size, quality);
    if key.Some? {
      MulNonNegative(Rate(model, key.value).value, n as real);
    }
  }

  /**
   * `get_image(model, prompt, user_id, n, size, quality)`: `generated` is
   * what the provider returns, `None` when the request raises. dall-e-3
   * with more than one image is refused before the request; the usage
   * ledger is debited only once the provider answered and the cost could be
   * priced.
   */
  method GetImage(db: Database, model: string, n: int, size: string, quality: string, user: nat,
                  generated: Option<string>)
    returns (r: Result<string, ProviderError>)
    modifies db`usage
    ensures model == "dall-e-3" && n != 1 ==> r == Err(SingleImageOnly) && db.usage == old(db.usage)
    ensures !(model == "dall-e-3" && n != 1) && generated.None? ==> r == Err(ProviderFailed) && db.usage == old(db.usage)
    ensures !(model == "dall-e-3" && n != 1) && generated.Some? ==>
      match ImageCost(model, n, size, quality)
      case Err(e) => r == Err(e) && db.usage == old(db.usage)
      case Ok(cost) => r == Ok(generated.value) && db.usage == DebitUser(old(db.usage), user, cost, InitialDabloons)
  {
    if model == "dall-e-3" && n != 1 {
      return Err(SingleImageOnly);
    }
    if generated.None? {
      return Err(ProviderFailed);
    }
    var cost := ImageCost(model, n, size, quality);
    if cost.Err? {
      return Err(cost.error);
    }
    db.UpdateUsage(user, cost.value, InitialDabloons);
    r := Ok(generated.value);
  }

  /** An image edit always costs the high-quality gpt-image-1 price, 0.167. */
  function EditCost(): (c: real)
    ensures c == 0.167
  {
    Pricing["gpt-image-1"]["high"]
  }

  /**
   * `edit_image(prompt, user_id, image_urls)`: `downloaded` says whether
   * every source image could be fetched and `edited` is what the provider
   * returns; the fixed edit price is debited only when both succeed.
   */
  method EditImage(db: Database, user: nat, downloaded: bool, edited: Option<string>)
    returns (r: Result<string, ProviderError>)
    modifies db`usage
    ensures (!downloaded || edited.None?) ==> r == Err(ProviderFailed) && db.usage == old(db.usage)
    ensures downloaded && edited.Some? ==>
      r == Ok(edited.value) && db.usage == DebitUser(old(db.usage), user, 0.167, InitialDabloons)
  {
    if !downloaded || edited.None? {
      return Err(ProviderFailed);
    }
    db.UpdateUsage(user, EditCost(), InitialDabloons);
    r := Ok(edited.value);
  }
}
