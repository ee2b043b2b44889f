/** One block through the inscription parser: moves of existing inscriptions, creations, leaks into
    fees, and the token actions they push. */
module BlockParser {
  import opened Base
  import opened Ledger
  import opened Searcher
  import opened Leaked
  import opened Routing
  import opened ScriptSig
  import opened TokenCacheStore

  /** An unfinished inscription: its first transaction and the scripts seen so far. */
  datatype Partials = Partials(inscriptionIndex: nat, genesisTxid: nat, parts: seq<Bytes>)

  type Offsets = map<OutPoint, set<nat>>

  /** What the parser is given besides its tables. `order` is the iteration order of hash sets and
      `message` the protocol decoder; results hold for every choice of both. */
  datatype Env = Env(
    txs: seq<Tx>,
    prevouts: map<OutPoint, TxPrevout>,
    jubilee: bool,
    bells: bool,
    height: nat,
    created: nat,
    order: (OutPoint, set<nat>) -> seq<nat>,
    message: (Bytes, Bytes) -> Option<Brc4>)

  /** The parser's mutable state. */
  datatype Progress = Progress(
    offsets: Offsets,
    partials: map<OutPoint, Partials>,
    leaked: map<nat, seq<LeakedKind>>,
    index: nat,
    actions: seq<TokenAction>,
    all: map<Location, TransferProto>)

  /** `xs` lists every element of `s` once. */
  ghost predicate Lists(xs: seq<nat>, s: set<nat>)
  {
    (forall x :: x in s <==> x in xs) && forall i, j :: 0 <= i < j < |xs| ==> xs[i] != xs[j]
  }

  ghost predicate OrderOk(env: Env)
  {
    forall o, s :: Lists(env.order(o, s), s)
  }

  /** The looked-up outputs agree with the block's own outputs. */
  ghost predicate PrevoutsMatch(env: Env)
  {
    forall k, v :: 0 <= k < |env.txs| && 0 <= v < |env.txs[k].outputs| && OutPoint(env.txs[k].txid, v) in env.prevouts ==>
      env.prevouts[OutPoint(env.txs[k].txid, v)] == TxPrevout(env.txs[k].outputs[v].scriptHash, env.txs[k].outputs[v].value)
  }

  ghost predicate EnvOk(env: Env)
  {
    Balanced(env.txs, env.prevouts) && OrderOk(env) && PrevoutsMatch(env)
  }

  /** Inscriptions on spent outputs sit strictly below the output's value. */
  ghost predicate InBounds(env: Env, offsets: Offsets)
  {
    forall o, x :: o in offsets && o in env.prevouts && x in offsets[o] ==> x < env.prevouts[o].value
  }

  function Insert(offsets: Offsets, o: OutPoint, x: nat): Offsets
  {
    offsets[o := Get(offsets, o, {}) + {x}]
  }

  function File(leaked: map<nat, seq<LeakedKind>>, key: nat, kind: LeakedKind): map<nat, seq<LeakedKind>>
  {
    leaked[key := (if key in leaked then leaked[key] else []) + [kind]]
  }

  function Recipient(out: TxOut): FullHash
  {
    if out.opReturn then OP_RETURN_HASH else out.scriptHash
  }

  // ---- the specification, step by step ----

  function MoveAction(p: Progress, from: Location, recipient: FullHash, txid: nat, vout: nat): seq<TokenAction>
  {
    p.actions + (if from in p.all then [Transferred(from, recipient, txid, vout)] else [])
  }

  ghost function MoveOne(env: Env, k: nat, i: nat, x: nat, p: Progress): Progress
    requires Balanced(env.txs, env.prevouts) && 1 <= k < |env.txs| && i < |env.txs[k].inputs|
  {
    var tx := env.txs[k];
    var from := Location(tx.inputs[i].outpoint, x);
    var u := StartOf(tx, env.prevouts, i) + x;
    match Locate(tx.outputs, u)
    case Some((vout, offset)) =>
      LocateIs(tx.outputs, u);
      p.(offsets := Insert(p.offsets, OutPoint(tx.txid, vout), offset),
         actions := MoveAction(p, from, Recipient(tx.outputs[vout]), tx.txid, vout))
    case None =>
      LocateIs(tx.outputs, u);
      p.(leaked := File(p.leaked, FeeKey(env.txs, env.prevouts, k, u), Move),
         actions := MoveAction(p, from, env.prevouts[from.outpoint].scriptHash, tx.txid, 0))
  }

  ghost function Moves(env: Env, k: nat, i: nat, xs: seq<nat>, n: nat, p: Progress): Progress
    requires Balanced(env.txs, env.prevouts) && 1 <= k < |env.txs| && i < |env.txs[k].inputs| && n <= |xs|
  {
    if n == 0 then p else MoveOne(env, k, i, xs[n - 1], Moves(env, k, i, xs, n - 1, p))
  }

  ghost function MoveInput(env: Env, k: nat, i: nat, p: Progress): Progress
    requires Balanced(env.txs, env.prevouts) && 1 <= k < |env.txs| && i < |env.txs[k].inputs|
  {
    var o := env.txs[k].inputs[i].outpoint;
    if o !in p.offsets then p
    else
      var xs := env.order(o, p.offsets[o]);
      Moves(env, k, i, xs, |xs|, p.(offsets := p.offsets - {o}))
  }

  function Continued(env: Env, k: nat, i: nat, p: Progress): Partials
    requires k < |env.txs| && i < |env.txs[k].inputs|
  {
    var tx := env.txs[k];
    var stored := Get(p.partials, tx.inputs[i].outpoint, Partials(0, tx.txid, []));
    stored.(parts := stored.parts + [tx.inputs[i].scriptSig])
  }

  /** The template of an inscription completed in transaction `k`; only one begun there gets a number. */
  function Template(env: Env, k: nat, partials: Partials, index: nat, location: Location, owner: FullHash, contentType: Bytes, body: Bytes): InscriptionTemplate
    requires k < |env.txs|
  {
    var number := if partials.genesisTxid == env.txs[k].txid then index else 0;
    InscriptionTemplate(OutPoint(partials.genesisTxid, number), location, owner, false, env.message(contentType, body))
  }

  /** An inscription completed at input `i` and placed at `offset` of output `vout`. */
  function Created(env: Env, k: nat, p: Progress, partials: Partials, vout: nat, offset: nat, contentType: Bytes, body: Bytes): Progress
    requires k < |env.txs| && vout < |env.txs[k].outputs|
  {
    var tx := env.txs[k];
    var own := partials.genesisTxid == tx.txid;
    var location := Location(OutPoint(tx.txid, vout), offset);
    var occupied := !env.bells && offset in Get(p.offsets, location.outpoint, {});
    var template := Template(env, k, partials, p.index, location, Recipient(tx.outputs[vout]), contentType, body);
    var p1 := p.(offsets := Insert(p.offsets, location.outpoint, offset), index := if own then p.index + 1 else p.index);
    if occupied && !env.jubilee then p1
    else
      var a := ActionFor(template, env.height, env.created);
      if a.None? then p1 else p1.(actions := p.actions + [a.value], all := Recorded(p.all, a.value, env.height))
  }

  ghost function CreateOne(env: Env, k: nat, i: nat, p: Progress): Progress
    requires Balanced(env.txs, env.prevouts) && 1 <= k < |env.txs| && i < |env.txs[k].inputs|
  {
    if !env.jubilee && i != 0 then p
    else
      var tx := env.txs[k];
      var partials := Continued(env, k, i, p);
      var p1 := p.(partials := p.partials - {tx.inputs[i].outpoint});
      match Verdict(Reads(partials.parts))
      case NoInscription => p1
      case Partial =>
        var own := partials.genesisTxid == tx.txid;
        var kept := if own then partials.(inscriptionIndex := p.index) else partials;
        p1.(index := if own then p.index + 1 else p.index,
            partials := if i < |tx.outputs| then p1.partials[OutPoint(tx.txid, i) := kept] else p1.partials)
      case Single(contentType, body) =>
        var u := StartOf(tx, env.prevouts, i);
        LocateIs(tx.outputs, u);
        match Locate(tx.outputs, u)
        case None => p1.(leaked := File(p.leaked, FeeKey(env.txs, env.prevouts, k, u), Creation))
        case Some((vout, offset)) => Created(env, k, p1, partials, vout, offset, contentType, body)
  }

  ghost function Inputs(env: Env, k: nat, n: nat, p: Progress): Progress
    requires Balanced(env.txs, env.prevouts) && 1 <= k < |env.txs| && n <= |env.txs[k].inputs|
  {
    if n == 0 then p.(index := 0)
    else CreateOne(env, k, n - 1, MoveInput(env, k, n - 1, Inputs(env, k, n - 1, p)))
  }

  /** The state after the first `n` transactions. */
  ghost function Txs(env: Env, n: nat, p: Progress): Progress
    requires Balanced(env.txs, env.prevouts) && 1 <= n <= |env.txs|
  {
    if n == 1 then p
    else Inputs(env, n - 1, |env.txs[n - 1].inputs|, Txs(env, n - 1, p))
  }

  ghost function Parsed(env: Env, p: Progress): Progress
    requires Balanced(env.txs, env.prevouts)
  {
    Txs(env, |env.txs|, p)
  }

  // ---- positions ----

  ghost predicate At(offsets: Offsets, l: Location)
  {
    l.outpoint in offsets && l.offset in offsets[l.outpoint]
  }

  /** The location of a leaked inscription once the coinbase is known. */
  ghost predicate LeakedAt(env: Env, leaked: map<nat, seq<LeakedKind>>, l: Location)
    requires Balanced(env.txs, env.prevouts)
  {
    exists key :: key in leaked && CoinbaseLocation(env.txs[0], Reward(env.txs, env.prevouts), key) == Some(l)
  }

  // ---- bounds are kept, so the fee arithmetic never underflows ----

  lemma InsertInBounds(env: Env, offsets: Offsets, k: nat, vout: nat, offset: nat)
    requires InBounds(env, offsets) && PrevoutsMatch(env)
    requires k < |env.txs| && vout < |env.txs[k].outputs| && offset < env.txs[k].outputs[vout].value
    ensures InBounds(env, Insert(offsets, OutPoint(env.txs[k].txid, vout), offset))
  {
  }

  lemma MoveOneInBounds(env: Env, k: nat, i: nat, x: nat, p: Progress)
    requires EnvOk(env) && 1 <= k < |env.txs| && i < |env.txs[k].inputs| && InBounds(env, p.offsets)
    ensures InBounds(env, MoveOne(env, k, i, x, p).offsets)
  {
    var u := StartOf(env.txs[k], env.prevouts, i) + x;
    LocateIs(env.txs[k].outputs, u);
    if Locate(env.txs[k].outputs, u).Some? {
      var (vout, offset) := Locate(env.txs[k].outputs, u).value;
      assert FallsInto(env.txs[k].outputs, u, vout, offset);
      InsertInBounds(env, p.offsets, k, vout, offset);
    }
  }

  lemma {:induction false} MovesInBounds(env: Env, k: nat, i: nat, xs: seq<nat>, n: nat, p: Progress)
    requires EnvOk(env) && 1 <= k < |env.txs| && i < |env.txs[k].inputs| && n <= |xs| && InBounds(env, p.offsets)
    ensures InBounds(env, Moves(env, k, i, xs, n, p).offsets)
  {
    if n > 0 {
      MovesInBounds(env, k, i, xs, n - 1, p);
      MoveOneInBounds(env, k, i, xs[n - 1], Moves(env, k, i, xs, n - 1, p));
    }
  }

  lemma MoveInputInBounds(env: Env, k: nat, i: nat, p: Progress)
    requires EnvOk(env) && 1 <= k < |env.txs| && i < |env.txs[k].inputs| && InBounds(env, p.offsets)
    ensures InBounds(env, MoveInput(env, k, i, p).offsets)
  {
    var o := env.txs[k].inputs[i].outpoint;
    if o in p.offsets {
      var xs := env.order(o, p.offsets[o]);
      MovesInBounds(env, k, i, xs, |xs|, p.(offsets := p.offsets - {o}));
    }
  }

  lemma CreateInBounds(env: Env, k: nat, i: nat, p: Progress)
    requires EnvOk(env) && 1 <= k < |env.txs| && i < |env.txs[k].inputs| && InBounds(env, p.offsets)
    ensures InBounds(env, CreateOne(env, k, i, p).offsets)
  {
    hide Reads, Continued, ActionFor, FeeKey, File, InBounds, Insert, Recorded;
    var u := StartOf(env.txs[k], env.prevouts, i);
    LocateIs(env.txs[k].outputs, u);
    if Locate(env.txs[k].outputs, u).Some? {
      var (vout, offset) := Locate(env.txs[k].outputs, u).value;
      assert FallsInto(env.txs[k].outputs, u, vout, offset);
      InsertInBounds(env, p.offsets, k, vout, offset);
    }
  }

  lemma {:induction false} InputsInBounds(env: Env, k: nat, n: nat, p: Progress)
    requires EnvOk(env) && 1 <= k < |env.txs| && n <= |env.txs[k].inputs| && InBounds(env, p.offsets)
    ensures InBounds(env, Inputs(env, k, n, p).offsets)
  {
    if n > 0 {
      InputsInBounds(env, k, n - 1, p);
      var p1 := Inputs(env, k, n - 1, p);
      MoveInputInBounds(env, k, n - 1, p1);
      CreateInBounds(env, k, n - 1, MoveInput(env, k, n - 1, p1));
    }
  }

  lemma {:induction false} TxsInBounds(env: Env, n: nat, p: Progress)
    requires EnvOk(env) && 1 <= n <= |env.txs| && InBounds(env, p.offsets)
    ensures InBounds(env, Txs(env, n, p).offsets)
  {
    if n > 1 {
      TxsInBounds(env, n - 1, p);
      InputsInBounds(env, n - 1, |env.txs[n - 1].inputs|, Txs(env, n - 1, p));
    }
  }
}
