/** Under an owner rule no interleaving of end-user writes moves a document to another owner. */
module Ownership {
  import opened ByteStrings
  import opened Values
  import opened Stores
  import opened Machine
  import opened Safety
  import opened Consistency
  import opened Lives
  import Rules
  import Validation

  function OpOf(req: Request): Rules.Op
    requires IsWriteReq(req)
  {
    if req.Insert? then Rules.Create else if req.Remove? then Rules.Delete else Rules.Update
  }

  /** The request carries the authorization closure the handlers build for this principal. */
  ghost predicate AuthorizedFor(req: Request, principal: Rules.Principal)
    requires IsWriteReq(req)
  {
    forall ctx :: req.pre(ctx) <==> Rules.Authorize(principal, ctx.coll, ctx.existing, ctx.next, OpOf(req))
  }

  /** What a push must satisfy for its owner rules: no owner field is a vector field. */
  predicate OwnerFieldAccepted(e: Env, cs: CollectionSchema, field: Bytes) {
    field in cs.fields ==> Validation.VectorDims(e, Validation.Unwrap(cs.fields[field])).None?
  }

  /** The collection is declared, the operation is for owners by `field`, and the push accepted that rule. The
      whole-write rule `{owner: field}` is this for every operation. */
  predicate OwnerRule(e: Env, cs: Option<CollectionSchema>, op: Rules.Op, field: Bytes, m: OwnerMatch) {
    && cs.Some? && cs.value.rules.Some? && Rules.RuleFor(cs.value.rules.value, op) == Some(Owner(field, m))
    && OwnerFieldAccepted(e, cs.value, field)
  }

  lemma WholeWriteRule(e: Env, cs: CollectionSchema, op: Rules.Op, field: Bytes, m: OwnerMatch)
    requires cs.rules.Some? && cs.rules.value.write == Some(All(Owner(field, m))) && OwnerFieldAccepted(e, cs, field)
    ensures op != Rules.Read ==> OwnerRule(e, Some(cs), op, field, m)
  {}

  /** The owner field is never one the server fills after judging. */
  lemma OwnerFieldNotFilled(e: Env, cs: Option<CollectionSchema>, op: Rules.Op, field: Bytes, m: OwnerMatch)
    requires OwnerRule(e, cs, op, field, m)
    ensures !Fillable(e, cs, field)
  {
    if field in cs.value.fields { Validation.FilledFieldsAreServerFilled(e, cs.value.fields[field]); }
  }

  /** The identity's value of the matched claim is what the document holds. */
  predicate OwnedBy(data: Data, field: Bytes, m: OwnerMatch, identity: Rules.Identity) {
    var value := Rules.OwnerValue(m, identity);
    value.Some? && value.value != [] && Get(data, field) == Some(Str(value.value))
  }

  lemma OwnerRuleDecides(e: Env, cs: Option<CollectionSchema>, op: Rules.Op, existing: Option<Data>, next: Option<Data>,
                         field: Bytes, m: OwnerMatch, identity: Rules.Identity)
    requires OwnerRule(e, cs, op, field, m)
    requires Rules.MayDo(Rules.EndUser(identity), cs.value.rules, op, existing, next)
    ensures op != Rules.Create ==> existing.Some? && OwnedBy(existing.value, field, m, identity)
    ensures op == Rules.Create || op == Rules.Update ==> next.Some? && OwnedBy(next.value, field, m, identity)
  {
    hide Rules.RuleIs, Rules.RuleFor;
    var rules := cs.value.rules;
    forall rule ensures Rules.RuleIs(rules, op, rule) <==> rules.Some? && Rules.RuleFor(rules.value, op) == Some(rule) {
      Rules.OneRule(rules, op, rule);
    }
  }

  /** Whatever is committed in any interleaving was permitted by the rules stored just before its batch: what an
      anonymous caller commits by a public rule, what an end user commits by some rule of the operation. */
  lemma CommitsArePermitted(e: Env, s: State, n: nat, principal: Rules.Principal)
    requires Reachable(e, s) && n < |s.log| && s.log[n].WriteCommit? && IsWriteReq(s.log[n].req)
    requires AuthorizedFor(s.log[n].req, principal)
    ensures |s.stores| == |s.log| + 1
    ensures var commit := s.log[n];
            var cs := CollectionAt(s.stores[n], commit.req.p, commit.req.c);
            var op := match commit.req
                      case Insert(_, _, _, _) => Rules.Create
                      case Remove(_, _, _, _) => Rules.Delete
                      case _ => Rules.Update;
            && Rules.MayDo(principal, if cs.Some? then cs.value.rules else None, op, OptData(commit.was),
                           if commit.req.Remove? then None else Some(commit.judged))
            && (principal.Anonymous? ==> cs.Some? && Rules.RuleIs(cs.value.rules, op, Public))
            && (principal.EndUser? ==> cs.Some? && exists rule :: Rules.RuleIs(cs.value.rules, op, rule))
  {
    hide Reachable, AtomicStep, Rules.RuleIs, Rules.OwnsBoth, CollectionAt;
    ReachableSerial(e, s);
    var commit := s.log[n];
    assert AtomicStep(e, s.stores[n], commit, s.stores[n + 1]);
    CommitWasLet(e, s.stores[n], commit, s.stores[n + 1]);
    var cs, op := CollectionAt(s.stores[n], commit.req.p, commit.req.c), OpOf(commit.req);
    var next := if commit.req.Remove? then None else Some(commit.judged);
    Rules.WhoMayDoWhat(principal, cs, OptData(commit.was), next, op);
    NoRulesNoRule(op);
  }

  lemma CommitWasLet(e: Env, before: Store, commit: Commit, after: Store)
    requires AtomicStep(e, before, commit, after) && commit.WriteCommit?
    ensures commit.req.pre(Ctx(CollectionAt(before, commit.req.p, commit.req.c), OptData(commit.was),
                               if commit.req.Remove? then None else Some(commit.judged)))
  {
    hide Follows, Validation.SchemaAccepts, FilledLate, CollectionAt, DocAt;
  }

  lemma NoRulesNoRule(op: Rules.Op)
    ensures forall rule :: !Rules.RuleIs(None, op, rule)
  {}

  /** Whoever commits a write owns the document it found and the document it stored, as stored. */
  lemma CommitterOwns(e: Env, before: Store, commit: Commit, after: Store, identity: Rules.Identity, field: Bytes,
                      m: OwnerMatch)
    requires AtomicStep(e, before, commit, after) && commit.WriteCommit? && IsWriteReq(commit.req)
    requires AuthorizedFor(commit.req, Rules.EndUser(identity))
    requires OwnerRule(e, CollectionAt(before, commit.req.p, commit.req.c), OpOf(commit.req), field, m)
    ensures commit.was.Some? ==> OwnedBy(commit.was.value.data, field, m, identity)
    ensures commit.now.Some? ==> OwnedBy(commit.now.value.data, field, m, identity)
    ensures commit.was.Some? || commit.now.Some?
  {
    var cs := CollectionAt(before, commit.req.p, commit.req.c);
    var next := if commit.req.Remove? then None else Some(commit.judged);
    OwnerFieldNotFilled(e, cs, OpOf(commit.req), field, m);
    Rules.WhoMayDoWhat(Rules.EndUser(identity), cs, OptData(commit.was), next, OpOf(commit.req));
    OwnerRuleDecides(e, cs, OpOf(commit.req), OptData(commit.was), next, field, m, identity);
    if commit.now.Some? { assert Get(commit.now.value.data, field) == Get(commit.judged, field); }
  }

  /** A write that finds a document and leaves one is a replace or a patch. */
  lemma LivingIsUpdate(e: Env, before: Store, commit: Commit, after: Store)
    requires AtomicStep(e, before, commit, after) && commit.WriteCommit? && commit.was.Some? && commit.now.Some?
    ensures IsWriteReq(commit.req) && OpOf(commit.req) == Rules.Update
  {}

  /** Between `a` and `b` updates are for owners and only end users write the document. */
  ghost predicate UnderOwnerRule(e: Env, s: State, p: Bytes, c: Bytes, id: Bytes, field: Bytes, m: OwnerMatch, a: nat,
                                 b: nat)
    requires |s.stores| == |s.log| + 1 && a <= b <= |s.log|
  {
    forall n | a <= n < b && Writes(s.log[n], p, c, id) ::
      && OwnerRule(e, CollectionAt(s.stores[n], p, c), Rules.Update, field, m)
      && exists identity :: AuthorizedFor(s.log[n].req, Rules.EndUser(identity))
  }

  predicate Alive(s: State, p: Bytes, c: Bytes, id: Bytes, a: nat, b: nat) {
    b < |s.stores| && forall n | a <= n <= b :: DocAt(s.stores[n], p, c, id).Some?
  }

  /** A document's owner value is the same at any two moments of its life, whatever was interleaved, and every
      commit on it in between came from an identity with that very value. */
  lemma OwnerNeverChanges(e: Env, s: State, p: Bytes, c: Bytes, id: Bytes, field: Bytes, m: OwnerMatch, a: nat, b: nat)
    requires Reachable(e, s) && |s.stores| == |s.log| + 1 && a <= b <= |s.log|
    requires UnderOwnerRule(e, s, p, c, id, field, m, a, b)
    requires DocAt(s.stores[a], p, c, id).Some? && DocAt(s.stores[b], p, c, id).Some?
    ensures Get(DocAt(s.stores[a], p, c, id).value.data, field) == Get(DocAt(s.stores[b], p, c, id).value.data, field)
    ensures forall n, identity
              | a <= n < b && Writes(s.log[n], p, c, id) && AuthorizedFor(s.log[n].req, Rules.EndUser(identity)) ::
              OwnedBy(DocAt(s.stores[a], p, c, id).value.data, field, m, identity)
  {
    hide Reachable, AtomicStep;
    ReachableSerial(e, s);
    forall n | a <= n <= b ensures DocAt(s.stores[n], p, c, id).Some? { OneLife(e, s, p, c, id, a, n, b); }
    OwnerAlong(e, s, p, c, id, field, m, a, b);
    forall n, identity
             | a <= n < b && Writes(s.log[n], p, c, id) && AuthorizedFor(s.log[n].req, Rules.EndUser(identity))
      ensures OwnedBy(DocAt(s.stores[a], p, c, id).value.data, field, m, identity)
    {
      OwnerAlong(e, s, p, c, id, field, m, a, n);
      assert AtomicStep(e, s.stores[n], s.log[n], s.stores[n + 1]) && Typed(s.stores[n]);
      WriterSetsDoc(e, s.stores[n], s.log[n], s.stores[n + 1], p, c, id);
      LivingIsUpdate(e, s.stores[n], s.log[n], s.stores[n + 1]);
      CommitterOwns(e, s.stores[n], s.log[n], s.stores[n + 1], identity, field, m);
    }
  }

  /** Between `a` and `b` every kind of write is for owners, as a whole-write rule says, and only end users write. */
  ghost predicate UnderWholeRule(e: Env, s: State, p: Bytes, c: Bytes, id: Bytes, field: Bytes, m: OwnerMatch, a: nat,
                                 b: nat)
    requires |s.stores| == |s.log| + 1 && a <= b <= |s.log|
  {
    forall n | a <= n < b && Writes(s.log[n], p, c, id) ::
      && (forall op | op != Rules.Read :: OwnerRule(e, CollectionAt(s.stores[n], p, c), op, field, m))
      && exists identity :: AuthorizedFor(s.log[n].req, Rules.EndUser(identity))
  }

  /** Then everyone who ever committed on a document, who inserted it, updated it or deleted it, is an identity with
      the one owner value it has at every moment of its life. */
  lemma OwnerForLife(e: Env, s: State, p: Bytes, c: Bytes, id: Bytes, field: Bytes, m: OwnerMatch, a: nat, b: nat,
                     x: nat, n: nat, identity: Rules.Identity)
    requires Reachable(e, s) && |s.stores| == |s.log| + 1 && a <= b <= |s.log|
    requires UnderWholeRule(e, s, p, c, id, field, m, a, b)
    requires a <= x <= b && DocAt(s.stores[x], p, c, id).Some?
    requires a <= n < b && Writes(s.log[n], p, c, id) && AuthorizedFor(s.log[n].req, Rules.EndUser(identity))
    ensures OwnedBy(DocAt(s.stores[x], p, c, id).value.data, field, m, identity)
  {
    hide Reachable, AtomicStep, OwnerRule, AuthorizedFor;
    ReachableSerial(e, s);
    var before, commit, after := s.stores[n], s.log[n], s.stores[n + 1];
    assert AtomicStep(e, before, commit, after) && Typed(before);
    WriterSetsDoc(e, before, commit, after, p, c, id);
    assert OpOf(commit.req) != Rules.Read;
    CommitterOwns(e, before, commit, after, identity, field, m);
    var y := if commit.was.Some? then n else n + 1;
    var lo, hi := if x <= y then x else y, if x <= y then y else x;
    forall k | lo <= k < hi && Writes(s.log[k], p, c, id)
      ensures OwnerRule(e, CollectionAt(s.stores[k], p, c), Rules.Update, field, m)
      ensures exists i :: AuthorizedFor(s.log[k].req, Rules.EndUser(i))
    {
    }
    OwnerNeverChanges(e, s, p, c, id, field, m, lo, hi);
  }

  lemma {:induction false} OwnerAlong(e: Env, s: State, p: Bytes, c: Bytes, id: Bytes, field: Bytes, m: OwnerMatch,
                                      a: nat, b: nat)
    requires Serial(e, s) && AllTyped(s) && a <= b <= |s.log| && UnderOwnerRule(e, s, p, c, id, field, m, a, b)
    requires Alive(s, p, c, id, a, b)
    ensures Get(DocAt(s.stores[a], p, c, id).value.data, field) == Get(DocAt(s.stores[b], p, c, id).value.data, field)
  {
    hide AtomicStep, OwnerRule, Writes;
    if a < b {
      OwnerAlong(e, s, p, c, id, field, m, a, b - 1);
      OwnerStep(e, s, p, c, id, field, m, b - 1);
    }
  }

  lemma OwnerStep(e: Env, s: State, p: Bytes, c: Bytes, id: Bytes, field: Bytes, m: OwnerMatch, n: nat)
    requires Serial(e, s) && AllTyped(s) && n < |s.log| && UnderOwnerRule(e, s, p, c, id, field, m, n, n + 1)
    requires Alive(s, p, c, id, n, n + 1)
    ensures Get(DocAt(s.stores[n], p, c, id).value.data, field)
              == Get(DocAt(s.stores[n + 1], p, c, id).value.data, field)
  {
    hide AtomicStep;
    var before, commit, after := s.stores[n], s.log[n], s.stores[n + 1];
    assert AtomicStep(e, before, commit, after) && Typed(before);
    if Writes(commit, p, c, id) {
      var identity :| AuthorizedFor(commit.req, Rules.EndUser(identity));
      WriterSetsDoc(e, before, commit, after, p, c, id);
      assert DocAt(before, p, c, id).Some? && DocAt(after, p, c, id).Some?;
      LivingIsUpdate(e, before, commit, after);
      CommitterOwns(e, before, commit, after, identity, field, m);
    } else {
      OthersKeepDoc(e, before, commit, after, p, c, id);
    }
  }
}
