/** How many workers can hold one group, in any interleaving at all: crashes,
    lost claims, webhooks and cleanups between claim and save included. */
module Tokens {
  import opened Prelude
  import opened Protocol

  function Waiting(c: Cell): nat {
    if c.row.Some? && c.row.value.dirty then 1 else 0
  }

  /** The upserts that landed on the group while it was held, since it was
      last held by nobody. */
  function Intruders(cfg: Config, c: Cell, e: Event, seen: nat): nat {
    if e.Upsert? && c.open != map[] then seen + 1
    else if Step(cfg, c, e).open == map[] then 0
    else seen
  }

  function IntrudersAfter(cfg: Config, c: Cell, tr: seq<Event>, seen: nat): nat
    decreases |tr|
  {
    if tr == [] then seen
    else IntrudersAfter(cfg, Step(cfg, c, tr[0]), tr[1..], Intruders(cfg, c, tr[0], seen))
  }

  ghost predicate TokenInv(c: Cell, seen: nat) {
    |c.open| + Waiting(c) <= 1 + seen
  }

  lemma DropOne(open: map<nat, Cursor>, id: nat)
    requires id in open
    ensures |open - {id}| == |open| - 1
  {
    assert (open - {id}).Keys == open.Keys - {id};
    assert |open| == |open.Keys| && |open - {id}| == |(open - {id}).Keys|;
  }

  lemma SetOne(open: map<nat, Cursor>, id: nat, cur: Cursor)
    ensures |open[id := cur]| == |open| + (if id in open then 0 else 1)
  {
    assert open[id := cur].Keys == open.Keys + {id};
    assert |open| == |open.Keys| && |open[id := cur]| == |open[id := cur].Keys|;
  }

  lemma ClaimTokens(cfg: Config, c: Cell, e: Event, seen: nat)
    requires e.Claim? && TokenInv(c, seen) && Enabled(cfg, c, e)
    ensures TokenInv(Step(cfg, c, e), Intruders(cfg, c, e, seen))
  {
    SetOne(c.open, e.id, Opened(c.row.value, e.buckets));
  }

  lemma WorkTokens(cfg: Config, c: Cell, e: Event, seen: nat)
    requires e.Work? && TokenInv(c, seen) && Enabled(cfg, c, e)
    ensures TokenInv(Step(cfg, c, e), Intruders(cfg, c, e, seen))
  {
    SetOne(c.open, e.id, Advance(cfg, c.open[e.id], c.log).0);
  }

  lemma SaveTokens(cfg: Config, c: Cell, e: Event, seen: nat)
    requires (e.Save? || e.Crash?) && TokenInv(c, seen) && Enabled(cfg, c, e)
    ensures TokenInv(Step(cfg, c, e), Intruders(cfg, c, e, seen))
  {
    DropOne(c.open, e.id);
  }

  lemma OtherTokens(cfg: Config, c: Cell, e: Event, seen: nat)
    requires (e.Upsert? || e.Cleanup?) && TokenInv(c, seen)
    ensures TokenInv(Step(cfg, c, e), Intruders(cfg, c, e, seen))
  { }

  lemma TokenStep(cfg: Config, c: Cell, e: Event, seen: nat)
    requires TokenInv(c, seen) && Enabled(cfg, c, e) && !e.Flush?
    ensures TokenInv(Step(cfg, c, e), Intruders(cfg, c, e, seen))
  {
    match e
    case Claim(_, _, _) => ClaimTokens(cfg, c, e, seen);
    case Work(_) => WorkTokens(cfg, c, e, seen);
    case Save(_, _) => SaveTokens(cfg, c, e, seen);
    case Crash(_) => SaveTokens(cfg, c, e, seen);
    case _ => OtherTokens(cfg, c, e, seen);
  }

  /** At all times the open claims on a group, and one more if it is waiting,
      are at most one more than the upserts that landed on it while held. */
  lemma {:induction false} ClaimsAreBounded(cfg: Config, c: Cell, tr: seq<Event>, seen: nat)
    requires TokenInv(c, seen) && Valid(cfg, c, tr) && forall e | e in tr :: !e.Flush?
    ensures TokenInv(Run(cfg, c, tr), IntrudersAfter(cfg, c, tr, seen))
    decreases |tr|
  {
    if tr != [] {
      assert tr[0] in tr;
      TokenStep(cfg, c, tr[0], seen);
      forall e | e in tr[1..] ensures !e.Flush? { assert e in tr; }
      ClaimsAreBounded(cfg, Step(cfg, c, tr[0]), tr[1..], Intruders(cfg, c, tr[0], seen));
    }
  }

  /** Two workers hold the same group only when a webhook came in between. */
  lemma SecondHolderNeedsUpsert(cfg: Config, tr: seq<Event>)
    requires Valid(cfg, EMPTY, tr) && (forall e | e in tr :: !e.Flush?)
    requires |Run(cfg, EMPTY, tr).open| >= 2
    ensures IntrudersAfter(cfg, EMPTY, tr, 0) >= 1
  {
    ClaimsAreBounded(cfg, EMPTY, tr, 0);
  }
}
