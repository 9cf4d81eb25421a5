/**
 Which proven obligations the code conforms to.

 An obligation's own blockers come from its own basis. Obligations relied on are read coinductively:
 failure spreads from what is blocked, or not proven, to everything relying on it, and what is never
 reached conforms.
 */
module Conformance {

  // Obligations, declarations and facts by their textual keys and canonical forms.
  type Obligation = string
  type Declaration = string
  type Fact = string

  datatype Condition = MissingFacts | Stale | Drifted | Incomplete

  /** What one fact of a basis asks of the code, by its conformance class. */
  datatype BasisFact =
    | Attestable(fact: Fact, implementers: seq<Declaration>)
    | Structural(fact: Fact, anchors: seq<Declaration>)
    | ModelWide(fact: Fact, claims: seq<Claim>)
    | ReliesOn(obligation: Obligation)
    | OtherInternal(fact: Fact)

  datatype Claim = Claim(carrier: Declaration, publishers: bool)

  /** What an obligation's conformance reads of one declaration. */
  datatype Standing = Standing(attested: set<Fact>, structural: bool, stale: bool, drifted: bool)

  /** A declaration outside the partition reads as attesting and claiming nothing. */
  function Unread(): Standing {
    Standing({}, false, false, false)
  }

  /** The state of the code: which kinds are textual and bindable, standings, and failed claims. */
  datatype Code = Code(
    textual: set<Declaration>,
    bindable: set<Declaration>,
    standings: map<Declaration, Standing>,
    failures: set<Claim>)

  function StandingOf(code: Code, d: Declaration): Standing {
    if d in code.textual && d in code.standings then code.standings[d] else Unread()
  }

  /** The conditions of a declaration that keep a fact from being provided. */
  function AttestableFails(code: Code, fact: Fact, d: Declaration): set<Condition> {
    var s := StandingOf(code, d);
    if fact !in s.attested then {MissingFacts} else if s.drifted then {Drifted} else {}
  }

  function StructuralFails(code: Code, d: Declaration): set<Condition> {
    var s := StandingOf(code, d);
    if !s.structural then {MissingFacts}
    else (if s.stale then {Stale} else {}) + (if s.drifted then {Drifted} else {})
  }

  datatype Block = Block(declaration: Declaration, condition: Condition, fact: Fact)

  /** What one basis fact is blocked by: only a declaration with a textual key can block. */
  ghost predicate Blocks(code: Code, b: BasisFact, x: Block) {
    && x.declaration in code.textual
    && match b
       case Attestable(fact, implementers) =>
         x.fact == fact && x.declaration in implementers && x.condition in AttestableFails(code, fact, x.declaration)
       case Structural(fact, anchors) =>
         && x.fact == fact && x.declaration in anchors && x.declaration in code.bindable
         && x.condition in StructuralFails(code, x.declaration)
       case ModelWide(fact, claims) =>
         x.fact == fact && x.condition == Incomplete &&
         exists c :: c in claims && c in code.failures && c.carrier == x.declaration
       case _ => false
  }

  function Add(code: Code, blocked: set<Block>, d: Declaration, condition: Condition, fact: Fact): set<Block> {
    if d in code.textual then blocked + {Block(d, condition, fact)} else blocked
  }

  /** Whether the code provides one basis fact; what is relied on is judged apart. */
  ghost predicate Provided(code: Code, b: BasisFact) {
    match b
    case Attestable(fact, implementers) =>
      forall d :: d in implementers ==> fact in StandingOf(code, d).attested && !StandingOf(code, d).drifted
    case Structural(_, anchors) =>
      forall d :: d in anchors && d in code.bindable ==>
        var s := StandingOf(code, d);
        s.structural && !s.stale && !s.drifted
    case ModelWide(_, claims) => forall c :: c in claims ==> c !in code.failures
    case ReliesOn(_) => true
    case OtherInternal(_) => true
  }

  /**
   Whether what is bindable, implements the fact or carries a claim has a textual key. All but
   requirements do, and no requirement is any of these.
   */
  ghost predicate Keyed(code: Code, b: BasisFact) {
    && code.bindable <= code.textual
    && match b
       case Attestable(_, implementers) => forall d :: d in implementers ==> d in code.textual
       case ModelWide(_, claims) => forall c :: c in claims ==> c.carrier in code.textual
       case _ => true
  }

  /** Which condition a declaration blocks by: what it does not attest or claim, that it is stale, or drifted. */
  lemma BlocksTell(code: Code, b: BasisFact, d: Declaration, condition: Condition, fact: Fact)
    ensures var read := d in code.standings;
            Blocks(code, b, Block(d, condition, fact)) <==>
            d in code.textual &&
            match b
            case Attestable(f, implementers) =>
              && f == fact && d in implementers
              && (condition == MissingFacts <==> !(read && fact in code.standings[d].attested))
              && (condition == MissingFacts || (condition == Drifted && code.standings[d].drifted))
            case Structural(f, anchors) =>
              && f == fact && d in anchors && d in code.bindable
              && (condition == MissingFacts <==> !(read && code.standings[d].structural))
              && (condition == MissingFacts || (condition == Stale && code.standings[d].stale) ||
                  (condition == Drifted && code.standings[d].drifted))
            case ModelWide(f, claims) =>
              && f == fact && condition == Incomplete
              && ((Claim(d, true) in claims && Claim(d, true) in code.failures) ||
                  (Claim(d, false) in claims && Claim(d, false) in code.failures))
            case _ => false
  {
    if b.ModelWide? {
      forall c: Claim ensures c == Claim(c.carrier, true) || c == Claim(c.carrier, false) {}
    }
  }

  ghost predicate AllProvided(code: Code, basis: seq<BasisFact>) {
    forall i :: 0 <= i < |basis| ==> Provided(code, basis[i])
  }

  ghost predicate AllKeyed(code: Code, basis: seq<BasisFact>) {
    forall i :: 0 <= i < |basis| ==> Keyed(code, basis[i])
  }

  /** A fact not provided always blocks. */
  lemma BlocksUnlessProvided(code: Code, b: BasisFact)
    requires Keyed(code, b)
    ensures Provided(code, b) <==> forall x :: !Blocks(code, b, x)
  {
    match b
    case Attestable(fact, implementers) =>
      forall d | d in implementers && AttestableFails(code, fact, d) != {} ensures exists x :: Blocks(code, b, x) {
        var condition :| condition in AttestableFails(code, fact, d);
        assert Blocks(code, b, Block(d, condition, fact));
      }
    case Structural(fact, anchors) =>
      forall d | d in anchors && d in code.bindable && StructuralFails(code, d) != {}
        ensures exists x :: Blocks(code, b, x)
      {
        var condition :| condition in StructuralFails(code, d);
        assert Blocks(code, b, Block(d, condition, fact));
      }
    case ModelWide(fact, claims) =>
      forall c | c in claims && c in code.failures ensures exists x :: Blocks(code, b, x) {
        assert Blocks(code, b, Block(c.carrier, Incomplete, fact));
      }
    case _ =>
  }

  /** An obligation's own blockers, and the obligations its basis relies on; none block if all is provided. */
  method OwnBlockers(code: Code, basis: seq<BasisFact>) returns (blocked: set<Block>, relies: set<Obligation>)
    ensures forall x :: x in blocked <==> exists i :: 0 <= i < |basis| && Blocks(code, basis[i], x)
    ensures AllKeyed(code, basis) ==> (blocked == {} <==> AllProvided(code, basis))
    ensures forall o :: o in relies <==> ReliesOn(o) in basis
  {
    blocked, relies := {}, {};
    for i := 0 to |basis|
      invariant forall x :: x in blocked <==> exists k :: 0 <= k < i && Blocks(code, basis[k], x)
      invariant forall o :: o in relies <==> ReliesOn(o) in basis[..i]
    {
      ghost var before := blocked;
      var b := basis[i];
      match b {
        case Attestable(fact, implementers) => blocked := BlockAttestable(code, fact, implementers, blocked);
        case Structural(fact, anchors) => blocked := BlockStructural(code, fact, anchors, blocked);
        case ModelWide(fact, claims) => blocked := BlockClaims(code, fact, claims, blocked);
        case ReliesOn(obligation) => relies := relies + {obligation};
        case OtherInternal(_) =>
      }
      assert forall x :: x in blocked <==> x in before || Blocks(code, b, x);
    }
    NoneBlocks(code, basis, blocked);
  }

  lemma NoneBlocks(code: Code, basis: seq<BasisFact>, blocked: set<Block>)
    requires forall x :: x in blocked <==> exists i :: 0 <= i < |basis| && Blocks(code, basis[i], x)
    ensures AllKeyed(code, basis) ==> (blocked == {} <==> AllProvided(code, basis))
  {
    hide Blocks, Provided, Keyed;
    if AllKeyed(code, basis) {
      forall i | 0 <= i < |basis| ensures Provided(code, basis[i]) <==> forall x :: !Blocks(code, basis[i], x) {
        BlocksUnlessProvided(code, basis[i]);
      }
      if !AllProvided(code, basis) {
        var i :| 0 <= i < |basis| && !Provided(code, basis[i]);
        var x :| Blocks(code, basis[i], x);
        assert x in blocked;
      }
    }
  }

  method BlockAttestable(code: Code, fact: Fact, implementers: seq<Declaration>, blocked: set<Block>)
    returns (more: set<Block>)
    ensures forall x :: x in more <==> x in blocked || Blocks(code, Attestable(fact, implementers), x)
  {
    more := blocked;
    for i := 0 to |implementers|
      invariant forall x :: x in more <==> x in blocked || Blocks(code, Attestable(fact, implementers[..i]), x)
    {
      var d := implementers[i];
      var s := StandingOf(code, d);
      if fact !in s.attested {
        more := Add(code, more, d, MissingFacts, fact);
      } else if s.drifted {
        more := Add(code, more, d, Drifted, fact);
      }
    }
    assert implementers[..|implementers|] == implementers;
  }

  method BlockStructural(code: Code, fact: Fact, anchors: seq<Declaration>, blocked: set<Block>)
    returns (more: set<Block>)
    ensures forall x :: x in more <==> x in blocked || Blocks(code, Structural(fact, anchors), x)
  {
    more := blocked;
    for i := 0 to |anchors|
      invariant forall x :: x in more <==> x in blocked || Blocks(code, Structural(fact, anchors[..i]), x)
    {
      var d := anchors[i];
      if d in code.bindable {
        var s := StandingOf(code, d);
        if !s.structural {
          more := Add(code, more, d, MissingFacts, fact);
        } else {
          if s.stale { more := Add(code, more, d, Stale, fact); }
          if s.drifted { more := Add(code, more, d, Drifted, fact); }
        }
      }
    }
    assert anchors[..|anchors|] == anchors;
  }

  method BlockClaims(code: Code, fact: Fact, claims: seq<Claim>, blocked: set<Block>) returns (more: set<Block>)
    ensures forall x :: x in more <==> x in blocked || Blocks(code, ModelWide(fact, claims), x)
  {
    more := blocked;
    for i := 0 to |claims|
      invariant forall x :: x in more <==> x in blocked || Blocks(code, ModelWide(fact, claims[..i]), x)
    {
      var c := claims[i];
      ghost var before := more;
      if c in code.failures {
        more := Add(code, more, c.carrier, Incomplete, fact);
      }
      assert claims[..i + 1] == claims[..i] + [c];
    }
    assert claims[..|claims|] == claims;
  }

  datatype Own = Own(blockers: set<Block>, relies: set<Obligation>)

  /** A set of obligations with no blocker, relying only on one another. */
  ghost predicate SelfSupporting(own: map<Obligation, Own>, s: set<Obligation>) {
    forall k :: k in s ==> k in own && own[k].blockers == {} && own[k].relies <= s
  }

  /** What of an obligation's reliances fails: those failing, and those not proven. */
  function Through(own: map<Obligation, Own>, failing: set<Obligation>, k: Obligation): set<Obligation>
    requires k in own
  {
    set relied | relied in own[k].relies && (relied in failing || relied !in own)
  }

  /** The obligations that fail, by spreading failure until nothing more is reached. */
  method Failing(own: map<Obligation, Own>) returns (failing: set<Obligation>)
    ensures failing <= own.Keys
    ensures SelfSupporting(own, own.Keys - failing)
    ensures forall s :: SelfSupporting(own, s) ==> s <= own.Keys - failing
    ensures forall k :: k in own ==> (k in failing <==> own[k].blockers != {} || Through(own, failing, k) != {})
  {
    failing := set k | k in own && own[k].blockers != {};
    while true
      invariant failing <= own.Keys
      invariant forall k :: k in own && own[k].blockers != {} ==> k in failing
      invariant forall k :: k in failing ==> own[k].blockers != {} || Through(own, failing, k) != {}
      invariant forall s :: SelfSupporting(own, s) ==> s !! failing
      decreases own.Keys - failing
    {
      var spread := set k | k in own && k !in failing && Through(own, failing, k) != {};
      if spread == {} {
        assert forall k :: k in own && k !in failing ==> k !in spread;
        break;
      }
      SpreadFails(own, failing, spread);
      var k :| k in spread;
      assert own.Keys - (failing + spread) < own.Keys - failing by {
        assert k in own.Keys - failing && k !in own.Keys - (failing + spread);
      }
      failing := failing + spread;
    }
    forall k, relied | k in own.Keys - failing && relied in own[k].relies ensures relied in own.Keys - failing {
      assert Through(own, failing, k) == {};
      assert relied !in Through(own, failing, k);
    }
  }

  /** What failure spreads to is in no self-supporting set. */
  lemma SpreadFails(own: map<Obligation, Own>, failing: set<Obligation>, spread: set<Obligation>)
    requires failing <= own.Keys
    requires forall k :: k in failing ==> own[k].blockers != {} || Through(own, failing, k) != {}
    requires forall s :: SelfSupporting(own, s) ==> s !! failing
    requires forall k :: k in spread ==> k in own && Through(own, failing, k) != {}
    ensures forall s :: SelfSupporting(own, s) ==> s !! failing + spread
    ensures forall k :: k in failing + spread ==> own[k].blockers != {} || Through(own, failing + spread, k) != {}
  {
    forall s | SelfSupporting(own, s) ensures s !! failing + spread {
      forall k | k in s ensures Through(own, failing, k) == {} {
        assert own[k].relies <= s;
      }
    }
    forall k | k in failing + spread ensures own[k].blockers != {} || Through(own, failing + spread, k) != {} {
      assert Through(own, failing, k) <= Through(own, failing + spread, k);
    }
  }

  /** Each obligation of a chain relies on the next. */
  ghost predicate Chain(own: map<Obligation, Own>, chain: seq<Obligation>) {
    && chain != []
    && forall i :: 0 <= i < |chain| - 1 ==> ReliesAt(own, chain, i)
  }

  ghost predicate ReliesAt(own: map<Obligation, Own>, chain: seq<Obligation>, i: nat)
    requires i < |chain| - 1
  {
    chain[i] in own && chain[i + 1] in own[chain[i]].relies
  }

  /** A chain that ends at what is blocked, or not proven. */
  ghost predicate BadChain(own: map<Obligation, Own>, chain: seq<Obligation>) {
    && Chain(own, chain)
    && var last := chain[|chain| - 1];
       last !in own || own[last].blockers != {}
  }

  ghost predicate Fails(own: map<Obligation, Own>, k: Obligation) {
    exists chain :: BadChain(own, chain) && chain[0] == k
  }

  lemma {:induction false} ChainStaysIn(own: map<Obligation, Own>, s: set<Obligation>, chain: seq<Obligation>, i: nat)
    requires SelfSupporting(own, s) && Chain(own, chain) && chain[0] in s && i < |chain|
    ensures chain[i] in s
  {
    if i > 0 {
      ChainStaysIn(own, s, chain, i - 1);
      assert ReliesAt(own, chain, i - 1);
    }
  }

  lemma FailsBefore(own: map<Obligation, Own>, k: Obligation, relied: Obligation)
    requires k in own && relied in own[k].relies && Fails(own, relied)
    ensures Fails(own, k)
  {
    var chain :| BadChain(own, chain) && chain[0] == relied;
    var longer := [k] + chain;
    forall i | 0 <= i < |longer| - 1 ensures ReliesAt(own, longer, i) {
      if i > 0 { assert ReliesAt(own, chain, i - 1); }
    }
    assert longer[|longer| - 1] == chain[|chain| - 1];
    assert BadChain(own, longer) && longer[0] == k;
  }

  /**
   The greatest self-supporting set holds exactly the obligations from which no chain of reliances, of
   any length, leads to a blocked or unproven one; a cycle alone fails nothing.
   */
  lemma ConformsIffNoBadChain(own: map<Obligation, Own>, conformant: set<Obligation>, k: Obligation)
    requires SelfSupporting(own, conformant)
    requires forall s :: SelfSupporting(own, s) ==> s <= conformant
    requires k in own
    ensures k in conformant <==> !Fails(own, k)
  {
    if k in conformant && Fails(own, k) {
      var chain :| BadChain(own, chain) && chain[0] == k;
      ChainStaysIn(own, conformant, chain, |chain| - 1);
    }
    if !Fails(own, k) {
      var s := set o | o in own && !Fails(own, o);
      forall o | o in s ensures own[o].blockers == {} && own[o].relies <= s {
        assert BadChain(own, [o]) <==> own[o].blockers != {};
        assert [o][0] == o;
        forall relied | relied in own[o].relies ensures relied in s {
          if relied !in own {
            assert BadChain(own, [relied]) && [relied][0] == relied;
          }
          if Fails(own, relied) { FailsBefore(own, o, relied); }
        }
      }
      assert SelfSupporting(own, s);
    }
  }
}
