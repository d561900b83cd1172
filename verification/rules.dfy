/** Declarative access rules and their evaluation (server/src/rules.rs). */
module Rules {
  import opened ByteStrings
  import opened Values

  datatype Identity = Identity(subject: Bytes, tokenIdentifier: Bytes, email: Option<Bytes>)
  datatype Principal = ApiKey | Anonymous | EndUser(identity: Identity)
  datatype Op = Read | Create | Update | Delete

  /** What an owner rule compares the document field against. */
  function OwnerValue(m: OwnerMatch, identity: Identity): Option<Bytes> {
    match m
    case Subject => Some(identity.subject)
    case TokenIdentifier => Some(identity.tokenIdentifier)
    case Email => identity.email
  }

  function RuleFor(rules: CollectionRules, op: Op): Option<Rule> {
    if op == Read then rules.read
    else match rules.write
      case None => None
      case Some(All(rule)) => Some(rule)
      case Some(PerOp(create, update, delete)) =>
        if op == Create then create else if op == Update then update else delete
  }

  datatype OwnerCheck = OwnerCheck(field: Bytes, matchOn: OwnerMatch, identity: Identity)
  datatype Access = Unauthenticated | Forbidden | Granted | OwnerScoped(check: OwnerCheck)

  function Deny(principal: Principal): Access {
    if principal == Anonymous then Unauthenticated else Forbidden
  }

  /** May this principal attempt `op` on this collection? API keys bypass the rules. */
  function CollectionAccess(principal: Principal, rules: Option<CollectionRules>, op: Op): Access {
    if principal == ApiKey then Granted
    else if rules.None? || RuleFor(rules.value, op).None? then Deny(principal)
    else match RuleFor(rules.value, op).value
      case Public => Granted
      case Authenticated => if principal.EndUser? then Granted else Deny(principal)
      case Owner(field, matchOn) =>
        if principal.EndUser? then OwnerScoped(OwnerCheck(field, matchOn, principal.identity)) else Deny(principal)
  }

  /** A missing field, a non-string, or an empty identity denies. */
  predicate Permits(check: OwnerCheck, data: Data) {
    && OwnerValue(check.matchOn, check.identity).Some?
    && OwnerValue(check.matchOn, check.identity).value != []
    && Get(data, check.field) == Some(Str(OwnerValue(check.matchOn, check.identity).value))
  }

  /** Enforce an access against the documents the operation touches; a side that was needed but not
      supplied denies. */
  predicate Permit(access: Access, op: Op, existing: Option<Data>, next: Option<Data>) {
    match access
    case Granted => true
    case OwnerScoped(check) =>
      && (op in {Read, Delete, Update} ==> existing.Some? && Permits(check, existing.value))
      && (op in {Create, Update} ==> next.Some? && Permits(check, next.value))
    case _ => false
  }

  /** The decision taken inside the write lock, from the collection schema as it stands there. */
  predicate Authorize(principal: Principal, cs: Option<CollectionSchema>, existing: Option<Data>, next: Option<Data>,
                      op: Op) {
    Permit(CollectionAccess(principal, if cs.Some? then cs.value.rules else None, op), op, existing, next)
  }

  // ---- Who may do what ----

  /** The collection declares this rule for the operation: one for reads, one for all writes or one for each. */
  predicate RuleIs(rules: Option<CollectionRules>, op: Op, rule: Rule) {
    && rules.Some?
    && if op == Read then rules.value.read == Some(rule)
       else
         && rules.value.write.Some?
         && var write := rules.value.write.value;
            || write == All(rule)
            || (write.PerOp?
                && match op
                   case Create => write.create == Some(rule)
                   case Update => write.update == Some(rule)
                   case _ => write.delete == Some(rule))
  }

  /** The document names the identity in the field: by its subject, its token identifier or its email, and not by an
      empty one. */
  predicate Names(data: Data, field: Bytes, m: OwnerMatch, identity: Identity) {
    && field in data && data[field].Str? && data[field].s != []
    && match m
       case Subject => data[field].s == identity.subject
       case TokenIdentifier => data[field].s == identity.tokenIdentifier
       case Email => Some(data[field].s) == identity.email
  }

  /** The document an operation finds names the identity, unless it creates one, and so does the document it leaves. */
  predicate OwnsBoth(op: Op, existing: Option<Data>, next: Option<Data>, field: Bytes, m: OwnerMatch,
                     identity: Identity) {
    && (op == Create || (existing.Some? && Names(existing.value, field, m, identity)))
    && (op == Read || op == Delete || (next.Some? && Names(next.value, field, m, identity)))
  }

  ghost predicate MayDo(principal: Principal, rules: Option<CollectionRules>, op: Op, existing: Option<Data>,
                        next: Option<Data>) {
    match principal
    case ApiKey => true
    case Anonymous => RuleIs(rules, op, Public)
    case EndUser(identity) =>
      || RuleIs(rules, op, Public) || RuleIs(rules, op, Authenticated)
      || exists field, m :: RuleIs(rules, op, Owner(field, m)) && OwnsBoth(op, existing, next, field, m, identity)
  }

  /** An operation has at most one rule. */
  lemma OneRule(rules: Option<CollectionRules>, op: Op, rule: Rule)
    ensures RuleIs(rules, op, rule) <==> rules.Some? && RuleFor(rules.value, op) == Some(rule)
  {
  }

  lemma PermitsIsNames(field: Bytes, m: OwnerMatch, identity: Identity, data: Data)
    ensures Permits(OwnerCheck(field, m, identity), data) <==> Names(data, field, m, identity)
  {
  }

  /** Exactly who may do what, for every rule and every operation: an API key anything, nobody else without a rule; an
      anonymous caller what is public; an end user what is public or for the authenticated, and under an owner rule what
      touches documents that name them alone. */
  lemma WhoMayDoWhat(principal: Principal, cs: Option<CollectionSchema>, existing: Option<Data>, next: Option<Data>,
                     op: Op)
    ensures Authorize(principal, cs, existing, next, op)
       <==> MayDo(principal, if cs.Some? then cs.value.rules else None, op, existing, next)
  {
    hide RuleFor, RuleIs, Names, Permits;
    var rules := if cs.Some? then cs.value.rules else None;
    forall rule ensures RuleIs(rules, op, rule) <==> rules.Some? && RuleFor(rules.value, op) == Some(rule) {
      OneRule(rules, op, rule);
    }
    if principal.EndUser? {
      forall field, m, data
        ensures Permits(OwnerCheck(field, m, principal.identity), data) <==> Names(data, field, m, principal.identity)
      {
        PermitsIsNames(field, m, principal.identity, data);
      }
    }
  }

  /** And how a refusal reads before any document is looked at: an anonymous caller is told to authenticate, an end user
      that it is forbidden. */
  lemma HowItIsRefused(principal: Principal, rules: Option<CollectionRules>, op: Op)
    ensures CollectionAccess(principal, rules, op) == Unauthenticated
       <==> principal.Anonymous? && !RuleIs(rules, op, Public)
    ensures CollectionAccess(principal, rules, op) == Forbidden
       <==> principal.EndUser? && forall rule :: !RuleIs(rules, op, rule)
    ensures CollectionAccess(principal, rules, op).OwnerScoped?
       <==> principal.EndUser? && exists field, m :: RuleIs(rules, op, Owner(field, m))
  {
    hide RuleIs;
    forall rule ensures RuleIs(rules, op, rule) <==> rules.Some? && RuleFor(rules.value, op) == Some(rule) {
      OneRule(rules, op, rule);
    }
  }

  /** Exactly who may write where the rule of the operation is an owner rule, be it for all writes or for this one:
      API keys, and end users holding a non-empty identity value that every document the operation reads or
      stores carries. */
  lemma OwnerRuleMeaning(principal: Principal, cs: CollectionSchema, existing: Option<Data>, next: Option<Data>,
                         op: Op, field: Bytes, m: OwnerMatch)
    requires cs.rules.Some? && RuleFor(cs.rules.value, op) == Some(Owner(field, m)) && op != Read
    ensures Authorize(principal, Some(cs), existing, next, op) <==>
              || principal == ApiKey
              || (&& principal.EndUser?
                  && OwnerValue(m, principal.identity).Some? && OwnerValue(m, principal.identity).value != []
                  && var owner := Some(Str(OwnerValue(m, principal.identity).value));
                     && (op != Create ==> existing.Some? && Get(existing.value, field) == owner)
                     && (op != Delete ==> next.Some? && Get(next.value, field) == owner))
  {
  }

  function Filter<T>(keep: T -> bool, items: seq<T>): seq<T> {
    if items == [] then [] else (if keep(items[0]) then [items[0]] else []) + Filter(keep, items[1..])
  }

  /** Drop what an owner-scoped access may not see; the accessor finds each item's document. */
  function Retain<T>(access: Access, items: seq<T>, dataOf: T -> Data): seq<T> {
    if access.OwnerScoped? then Filter(x => Permits(access.check, dataOf(x)), items) else items
  }

  method RetainItems<T>(access: Access, items: seq<T>, dataOf: T -> Data) returns (out: seq<T>)
    ensures out == Retain(access, items, dataOf)
  {
    if !access.OwnerScoped? { return items; }
    var keep := x => Permits(access.check, dataOf(x));
    out := [];
    for i := 0 to |items|
      invariant out == Filter(keep, items[..i])
    {
      FilterConcat(keep, items[..i], [items[i]]);
      assert items[..i + 1] == items[..i] + [items[i]];
      if keep(items[i]) { out := out + [items[i]]; }
    }
    assert items[..|items|] == items;
  }

  lemma {:induction false} FilterConcat<T>(keep: T -> bool, a: seq<T>, b: seq<T>)
    ensures Filter(keep, a + b) == Filter(keep, a) + Filter(keep, b)
  {
    if a == [] {
      assert a + b == b;
    } else {
      FilterConcat(keep, a[1..], b);
      assert (a + b)[1..] == a[1..] + b && (a + b)[0] == a[0];
    }
  }
}
