/** The Slack side: what is asked of it, what it may answer, and what its
    channels show afterwards. */
module Slack {
  import opened Prelude
  import opened Members
  import opened Message

  /** Slack refuses a call, or accepts it and reports channel and timestamp. */
  datatype Outcome = Failed | Accepted(channel: string, ts: string)

  datatype Op = Post | Update(apiChannel: string, ts: string)

  /** One API call made for the rule channel `channel`.  Its content is a card
      rendered from `members` in `style`. */
  datatype Send = Send(channel: string, op: Op, style: GroupStyle, members: seq<GroupMember>, outcome: Outcome)

  /** The answer to the n-th call made for a group: any sequence of failures
      and successes. */
  type Script = nat -> Outcome

  /** Where a message really lives: Slack's own channel and timestamp. */
  datatype Address = Address(channel: string, ts: string)

  predicate PostedOk(s: Send) {
    s.op.Post? && s.outcome.Accepted?
  }

  /** The channel a post for `channel` landed in. */
  function Resolved(channel: string, reported: string): string {
    if reported == "" then channel else reported
  }

  /** The bookkeeping kept for an accepted post. */
  function MadeTarget(channel: string, o: Outcome): NotifiedTarget
    requires o.Accepted?
  {
    NotifiedTarget(channel, if o.channel != channel then o.channel else "", o.ts)
  }

  function ApiChannel(t: NotifiedTarget): string {
    if t.apiChannel == "" then t.channel else t.apiChannel
  }

  function AddressOf(t: NotifiedTarget): Address {
    Address(ApiChannel(t), t.ts)
  }

  /** The message a call creates or rewrites. */
  function SentTo(s: Send): Option<Address> {
    match s.op
    case Update(apiChannel, ts) => Some(Address(apiChannel, ts))
    case Post => if s.outcome.Accepted? then Some(Address(Resolved(s.channel, s.outcome.channel), s.outcome.ts)) else None
  }

  /** The bookkeeping of a post finds the message again. */
  lemma MadeTargetAddress(channel: string, o: Outcome)
    requires o.Accepted?
    ensures AddressOf(MadeTarget(channel, o)) == Address(Resolved(channel, o.channel), o.ts)
  { }

  /** Slack never hands out the same message twice: two accepted posts differ
      in timestamp if they went to the same channel, be it the rule's or the
      resolved one. */
  ghost predicate FreshPosts(log: seq<Send>) {
    forall i, j | 0 <= i < j < |log| && PostedOk(log[i]) && PostedOk(log[j]) :: !SameMessage(log[i], log[j])
  }

  predicate SameMessage(s: Send, r: Send)
    requires PostedOk(s) && PostedOk(r)
  {
    s.outcome.ts == r.outcome.ts &&
    (s.channel == r.channel || Resolved(s.channel, s.outcome.channel) == Resolved(r.channel, r.outcome.channel))
  }

  lemma FreshPrefix(log: seq<Send>, prefix: seq<Send>)
    requires prefix <= log && FreshPosts(log)
    ensures FreshPosts(prefix)
  { }

  /** What the message at an address shows: the last call that went through. */
  function Shown(log: seq<Send>, a: Address): Option<Send> {
    if log == [] then None
    else if SentTo(Last(log)) == Some(a) && Last(log).outcome.Accepted? then Some(Last(log))
    else Shown(Init(log), a)
  }

  /** The HTTP client: answers come from the script, calls are remembered. */
  class Client {
    const script: Script
    var log: seq<Send>

    constructor (script: Script)
      ensures this.script == script && log == []
    {
      this.script := script;
      log := [];
    }

    method Post(channel: string, style: GroupStyle, members: seq<GroupMember>, card: Card) returns (o: Outcome)
      requires IsCard(style, members, card)
      modifies this
      ensures o == script(|old(log)|)
      ensures log == old(log) + [Send(channel, Op.Post, style, members, o)]
    {
      o := script(|log|);
      log := log + [Send(channel, Op.Post, style, members, o)];
    }

    method Update(channel: string, apiChannel: string, ts: string, style: GroupStyle, members: seq<GroupMember>, card: Card)
      returns (o: Outcome)
      requires IsCard(style, members, card)
      modifies this
      ensures o == script(|old(log)|)
      ensures log == old(log) + [Send(channel, Op.Update(apiChannel, ts), style, members, o)]
    {
      o := script(|log|);
      log := log + [Send(channel, Op.Update(apiChannel, ts), style, members, o)];
    }
  }
}
