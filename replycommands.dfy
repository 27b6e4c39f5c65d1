/**
 * The `rs` and `rw` commands: from the command message to the message it
 * replies to, and from there to the message that one replies to, the
 * grandparent. `rs` runs the prompt chain again on the grandparent; `rw`
 * answers the grandparent with new text. Each step that fails stops the
 * command with its own error message, in a fixed order.
 */
module ReplyCommands {
  import opened Wrappers
  import opened Talk

  const NoReference: string := "Error: Please reply to a message."
  const RepliedMissing: string := "Error: Could not find the replied message."
  const RepliedNotReply: string := "Error: The replied message must be replying to a message."

  /** The last error names what the command would have done: "resend" or "rewrite". */
  function GrandparentMissing(purpose: string): string {
    "Error: Could not find the grandparent message to " + purpose + "."
  }

  /**
   * The lookup both commands share, with `fetch` standing for `get_msg`.
   * The result is the grandparent, or the first error met.
   */
  function Grandparent(m: ChatMessage, fetch: Fetch, purpose: string): (r: Result<ChatMessage, string>)
    ensures m.replyTo.None? ==> r == Err(NoReference)
    ensures m.replyTo.Some? && fetch(m.replyTo.value).None? ==> r == Err(RepliedMissing)
    ensures m.replyTo.Some? && fetch(m.replyTo.value).Some? && fetch(m.replyTo.value).value.replyTo.None? ==>
      r == Err(RepliedNotReply)
    ensures r.Ok? <==>
      && m.replyTo.Some? && fetch(m.replyTo.value).Some?
      && fetch(m.replyTo.value).value.replyTo.Some?
      && fetch(fetch(m.replyTo.value).value.replyTo.value).Some?
    ensures r.Ok? ==> r.value == fetch(fetch(m.replyTo.value).value.replyTo.value).value
    ensures r.Err? ==> r.error in {NoReference, RepliedMissing, RepliedNotReply, GrandparentMissing(purpose)}
  {
    match m.replyTo
    case None => Err(NoReference)
    case Some(parentId) =>
      match fetch(parentId)
      case None => Err(RepliedMissing)
      case Some(parent) =>
        match parent.replyTo
        case None => Err(RepliedNotReply)
        case Some(grandId) =>
          match fetch(grandId)
          case None => Err(GrandparentMissing(purpose))
          case Some(grand) => Ok(grand)
  }

  /** What a command does once the lookup is over. */
  datatype Outcome =
    | ErrorReply(text: string)                        // `ctx.send(error)`
    | PromptChain(leaf: ChatMessage)                  // `handle_prompt_chain(ctx, leaf, bot_id)`
    | ReplyTo(target: ChatMessage, content: string)   // `target.reply(content)`

  /** `rs`: the prompt chain run again from the grandparent. */
  function Rs(m: ChatMessage, fetch: Fetch): (o: Outcome)
    ensures o.PromptChain? <==> Grandparent(m, fetch, "resend").Ok?
    ensures o.PromptChain? ==> o.leaf == Grandparent(m, fetch, "resend").value
    ensures o.ErrorReply? ==> o.text == Grandparent(m, fetch, "resend").error
    ensures !o.ReplyTo?
  {
    match Grandparent(m, fetch, "resend")
    case Ok(g) => PromptChain(g)
    case Err(e) => ErrorReply(e)
  }

  /** `rw`: the grandparent answered with the command's text. */
  function Rw(m: ChatMessage, fetch: Fetch, content: string): (o: Outcome)
    ensures o.ReplyTo? <==> Grandparent(m, fetch, "rewrite").Ok?
    ensures o.ReplyTo? ==> o.target == Grandparent(m, fetch, "rewrite").value && o.content == content
    ensures o.ErrorReply? ==> o.text == Grandparent(m, fetch, "rewrite").error
    ensures !o.PromptChain?
  {
    match Grandparent(m, fetch, "rewrite")
    case Ok(g) => ReplyTo(g, content)
    case Err(e) => ErrorReply(e)
  }

  /**
   * The two commands fail at the same step and reach the same grandparent;
   * they differ only in the word at the end of the last error.
   */
  lemma RsRwAgree(m: ChatMessage, fetch: Fetch, content: string)
    ensures Rs(m, fetch).PromptChain? <==> Rw(m, fetch, content).ReplyTo?
    ensures Rs(m, fetch).PromptChain? ==> Rs(m, fetch).leaf == Rw(m, fetch, content).target
    ensures Rs(m, fetch).ErrorReply? && Rs(m, fetch).text != GrandparentMissing("resend") ==>
      Rw(m, fetch, content) == Rs(m, fetch)
    ensures Rs(m, fetch) == ErrorReply(GrandparentMissing("resend")) <==>
      Rw(m, fetch, content) == ErrorReply(GrandparentMissing("rewrite"))
  {
    assert GrandparentMissing("resend")[|GrandparentMissing("resend")| - 3] == 'n';
    assert GrandparentMissing("rewrite")[|GrandparentMissing("rewrite")| - 3] == 't';
  }

  /**
   * Where no id is 0, the grandparent is the message two steps up the
   * reply chain the prompt compiler walks.
   */
  lemma GrandparentInChain(m: ChatMessage, fetch: Fetch, purpose: string, fuel: nat)
    requires Grandparent(m, fetch, purpose).Ok? && fuel >= 2
    requires m.replyTo != Some(0) && fetch(m.replyTo.value).value.replyTo != Some(0)
    ensures |ChainFrom(m, fetch, fuel)| >= 3
    ensures ChainFrom(m, fetch, fuel)[2] == Grandparent(m, fetch, purpose).value
  {
    var parent := fetch(m.replyTo.value).value;
    var grand := Grandparent(m, fetch, purpose).value;
    var rest := ChainFrom(grand, fetch, fuel - 2);
    assert ChainFrom(parent, fetch, fuel - 1) == [parent] + rest;
    assert ChainFrom(m, fetch, fuel) == [m] + ([parent] + rest);
  }
}
