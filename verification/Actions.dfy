/** Action recommendations and proposals, their deep-frozen parameters, the digest that
    approvals bind, and the lifecycle tables (domain/actions.py, domain/approvals.py,
    domain/states.py). */
module Actions {
  import opened Base
  import opened Json
  import opened Entities

  // ---- Freeze and thaw -----------------------------------------------------------------------

  /** Frozen parameters: mapping proxies for dictionaries, tuples for lists. */
  datatype Frozen =
    | Leaf(value: Json)
    | Tuple(items: seq<Frozen>)
    | Proxy(members: seq<FrozenMember>)

  datatype FrozenMember = FrozenMember(key: string, value: Frozen)

  function Freeze(v: Json): Frozen
  {
    match v
    case Obj(ms) =>
      Proxy(seq(|ms|, i requires 0 <= i < |ms| => FrozenMember(ms[i].key, Freeze(ms[i].value))))
    case Arr(xs) => Tuple(seq(|xs|, i requires 0 <= i < |xs| => Freeze(xs[i])))
    case _ => Leaf(v)
  }

  function Thaw(f: Frozen): Json
  {
    match f
    case Proxy(ms) =>
      Obj(seq(|ms|, i requires 0 <= i < |ms| => Member(ms[i].key, Thaw(ms[i].value))))
    case Tuple(xs) => Arr(seq(|xs|, i requires 0 <= i < |xs| => Thaw(xs[i])))
    case Leaf(v) => v
  }

  /** What freezing yields: no list or dictionary is left at a leaf. */
  predicate DeeplyFrozen(f: Frozen)
  {
    match f
    case Leaf(v) => !v.Arr? && !v.Obj?
    case Tuple(xs) => forall i | 0 <= i < |xs| :: DeeplyFrozen(xs[i])
    case Proxy(ms) => forall i | 0 <= i < |ms| :: DeeplyFrozen(ms[i].value)
  }

  lemma {:induction false} ThawFreeze(v: Json)
    ensures Thaw(Freeze(v)) == v && DeeplyFrozen(Freeze(v))
  {
    match v
    case Obj(ms) =>
      forall i | 0 <= i < |ms|
        ensures Thaw(Freeze(ms[i].value)) == ms[i].value && DeeplyFrozen(Freeze(ms[i].value))
      {
        ThawFreeze(ms[i].value);
      }
      assert Thaw(Freeze(v)).members == ms;
    case Arr(xs) =>
      forall i | 0 <= i < |xs| ensures Thaw(Freeze(xs[i])) == xs[i] && DeeplyFrozen(Freeze(xs[i])) {
        ThawFreeze(xs[i]);
      }
      assert Thaw(Freeze(v)).items == xs;
    case _ =>
  }

  lemma {:induction false} FreezeThaw(f: Frozen)
    requires DeeplyFrozen(f)
    ensures Freeze(Thaw(f)) == f
  {
    match f
    case Proxy(ms) =>
      forall i | 0 <= i < |ms| ensures Freeze(Thaw(ms[i].value)) == ms[i].value {
        FreezeThaw(ms[i].value);
      }
      assert Freeze(Thaw(f)).members == ms;
    case Tuple(xs) =>
      forall i | 0 <= i < |xs| ensures Freeze(Thaw(xs[i])) == xs[i] {
        FreezeThaw(xs[i]);
      }
      assert Freeze(Thaw(f)).items == xs;
    case Leaf(_) =>
  }

  // ---- Recommendations, proposals and digests -----------------------------------------------

  /** The approval-relevant material of an action. */
  datatype Material = Material(catalogActionId: Id, target: EntityReference, parameters: Frozen)

  datatype ActionRecommendation = ActionRecommendation(material: Material, rationale: string)

  datatype ActionProposal = ActionProposal(actionId: Id, material: Material, rationale: string)

  datatype ActionReference = ActionReference(actionId: Id, actionDigest: string)

  /** Parameters are a frozen mapping whose thawed tree is a JSON value. */
  predicate ValidMaterial(m: Material)
  {
    m.parameters.Proxy? && DeeplyFrozen(m.parameters) && WellFormed(Thaw(m.parameters))
  }

  /** `ActionRecommendation.canonicalize`: dump (which thaws), add the identifier, validate
      (which freezes again). */
  function Canonicalize(r: ActionRecommendation, actionId: Id): ActionProposal
  {
    ActionProposal(
      actionId,
      r.material.(parameters := Freeze(Thaw(r.material.parameters))),
      r.rationale)
  }

  lemma CanonicalizeKeepsContent(r: ActionRecommendation, actionId: Id)
    requires ValidMaterial(r.material)
    ensures Canonicalize(r, actionId) == ActionProposal(actionId, r.material, r.rationale)
  {
    FreezeThaw(r.material.parameters);
  }

  function TargetTree(t: EntityReference): Json
  {
    Obj([Member("entity_type", Str(TypeName(t.entityType))), Member("identifier", Str(t.identifier))])
  }

  function MaterialTree(m: Material): Json
  {
    Obj([
      Member("catalog_action_id", Str(m.catalogActionId)),
      Member("target", TargetTree(m.target)),
      Member("parameters", Thaw(m.parameters))])
  }

  /** The bytes that are hashed. */
  function PreHash(m: Material): string
  {
    CanonicalText(MaterialTree(m), Unicode)
  }

  /** SHA-256 in hexadecimal is a function the model does not look into. */
  type Hash = string -> string

  function Digest(sha: Hash, m: Material): string
  {
    "sha256:" + sha(PreHash(m))
  }

  function Reference(sha: Hash, a: ActionProposal): ActionReference
  {
    ActionReference(a.actionId, Digest(sha, a.material))
  }

  /** Equal catalog action and target, and equal parameters up to member order. */
  predicate SameMaterial(a: Material, b: Material)
  {
    && a.catalogActionId == b.catalogActionId
    && a.target == b.target
    && Same(Thaw(a.parameters), Thaw(b.parameters))
  }

  lemma MaterialTreeWellFormed(m: Material)
    requires ValidMaterial(m)
    ensures WellFormed(MaterialTree(m))
  {
    assert "entity_type"[0] != "identifier"[0];
    assert "catalog_action_id"[0] == 'c' && "target"[0] == 't' && "parameters"[0] == 'p';
    assert WellFormed(TargetTree(m.target));
  }

  lemma TargetTreeDecides(s: EntityReference, t: EntityReference)
    ensures Same(TargetTree(s), TargetTree(t)) <==> s == t
  {
    var x, y := TargetTree(s).members, TargetTree(t).members;
    assert TypeOfName(TypeName(s.entityType)) == Some(s.entityType);
    assert TypeOfName(TypeName(t.entityType)) == Some(t.entityType);
    assert "entity_type"[0] != "identifier"[0];
    SameRecords(x, y);
    assert Same(x[0].value, y[0].value) <==> s.entityType == t.entityType;
    assert Same(x[1].value, y[1].value) <==> s.identifier == t.identifier;
  }

  lemma MaterialTreeDecides(a: Material, b: Material)
    ensures Same(MaterialTree(a), MaterialTree(b)) <==> SameMaterial(a, b)
  {
    var x, y := MaterialTree(a).members, MaterialTree(b).members;
    assert "catalog_action_id"[0] == 'c' && "target"[0] == 't' && "parameters"[0] == 'p';
    SameRecords(x, y);
    TargetTreeDecides(a.target, b.target);
    assert Same(x[0].value, y[0].value) <==> a.catalogActionId == b.catalogActionId;
    assert Same(x[1].value, y[1].value) <==> a.target == b.target;
    assert Same(x[2].value, y[2].value) <==> Same(Thaw(a.parameters), Thaw(b.parameters));
  }

  /** The hashed text is equal exactly for equal material. */
  lemma PreHashFaithful(a: Material, b: Material)
    requires ValidMaterial(a) && ValidMaterial(b)
    ensures PreHash(a) == PreHash(b) <==> SameMaterial(a, b)
  {
    MaterialTreeWellFormed(a);
    MaterialTreeWellFormed(b);
    CanonicalTextFaithful(MaterialTree(a), MaterialTree(b), Unicode);
    MaterialTreeDecides(a, b);
  }

  /** The tree that is hashed has the three members of the material, and the target's two. */
  lemma MaterialTreeMembers(m: Material)
    ensures MaterialTree(m).Obj? && TargetTree(m.target).Obj?
    ensures multiset(MaterialTree(m).members) == multiset{
      Member("catalog_action_id", Str(m.catalogActionId)), Member("parameters", Thaw(m.parameters)),
      Member("target", TargetTree(m.target))}
    ensures multiset(TargetTree(m.target).members) == multiset{
      Member("identifier", Str(m.target.identifier)),
      Member("entity_type", Str(match m.target.entityType case User => "USER" case Device => "DEVICE" case IpAddress => "IP_ADDRESS"))}
  {
  }

  ghost predicate Injective(sha: Hash)
  {
    forall x, y :: sha(x) == sha(y) ==> x == y
  }

  lemma DigestFaithful(sha: Hash, a: Material, b: Material)
    requires ValidMaterial(a) && ValidMaterial(b)
    ensures SameMaterial(a, b) ==> Digest(sha, a) == Digest(sha, b)
    ensures Injective(sha) && Digest(sha, a) == Digest(sha, b) ==> SameMaterial(a, b)
    ensures Digest(sha, a)[..7] == "sha256:" && Digest(sha, a)[7..] == sha(PreHash(a))
  {
    PreHashFaithful(a, b);
    if Digest(sha, a) == Digest(sha, b) {
      assert sha(PreHash(a)) == Digest(sha, a)[7..] == Digest(sha, b)[7..] == sha(PreHash(b));
    }
  }

  // ---- Lifecycles ------------------------------------------------------------------------------

  datatype ActionState =
    | Proposed | PendingApproval | Approved | Rejected | Expired | Executing | Succeeded | Failed

  function ActionSuccessors(s: ActionState): set<ActionState>
  {
    match s
    case Proposed => {PendingApproval}
    case PendingApproval => {Approved, Rejected, Expired}
    case Approved => {Executing, Expired}
    case Executing => {Succeeded, Failed}
    case _ => {}
  }

  datatype ApprovalDecision = Approve | Reject

  datatype TriageState = Pending | Running | Completed | TriageFailed | NeedsReview

  function TriageSuccessors(s: TriageState): set<TriageState>
  {
    match s
    case Pending => {Running}
    case Running => {Completed, TriageFailed, NeedsReview}
    case _ => {}
  }

  // ---- Whole lifecycles ------------------------------------------------------------------------

  /** Each state follows the one before it by the table. */
  predicate ActionPath(path: seq<ActionState>)
  {
    && path != [] && path[0] == Proposed
    && forall i | 0 <= i < |path| - 1 :: path[i + 1] in ActionSuccessors(path[i])
  }

  /** The path ends where the table goes no further. */
  predicate ActionEnds(path: seq<ActionState>)
  {
    path != [] && ActionSuccessors(path[|path| - 1]) == {}
  }

  /** The lives of an action: it is rejected, it expires undecided or approved, or it is approved,
      executed, and succeeds or fails. It is never executed but from APPROVED, and never leaves
      an end. */
  lemma ActionLifecycles(path: seq<ActionState>)
    ensures ActionPath(path) && ActionEnds(path) <==>
      || path == [Proposed, PendingApproval, Rejected]
      || path == [Proposed, PendingApproval, Expired]
      || path == [Proposed, PendingApproval, Approved, Expired]
      || path == [Proposed, PendingApproval, Approved, Executing, Succeeded]
      || path == [Proposed, PendingApproval, Approved, Executing, Failed]
  {
    if ActionPath(path) && ActionEnds(path) {
      ActionGoesOn(path, 0);
      ActionGoesOn(path, 1);
      ActionGoesOn(path, 2);
      ActionGoesOn(path, 3);
      ActionGoesOn(path, 4);
    }
  }

  lemma ActionGoesOn(path: seq<ActionState>, i: nat)
    requires ActionPath(path)
    ensures i < |path| - 1 ==> path[i + 1] in ActionSuccessors(path[i])
  {
  }

  predicate TriagePath(path: seq<TriageState>)
  {
    && path != [] && path[0] == Pending
    && forall i | 0 <= i < |path| - 1 :: path[i + 1] in TriageSuccessors(path[i])
  }

  predicate TriageEnds(path: seq<TriageState>)
  {
    path != [] && TriageSuccessors(path[|path| - 1]) == {}
  }

  /** The lives of an execution: it runs once, and is completed, failed or given to a review. */
  lemma TriageLifecycles(path: seq<TriageState>)
    ensures TriagePath(path) && TriageEnds(path) <==>
      path == [Pending, Running, Completed] || path == [Pending, Running, TriageFailed] || path == [Pending, Running, NeedsReview]
  {
    if TriagePath(path) && TriageEnds(path) {
      TriageGoesOn(path, 0);
      TriageGoesOn(path, 1);
      TriageGoesOn(path, 2);
    }
  }

  lemma TriageGoesOn(path: seq<TriageState>, i: nat)
    requires TriagePath(path)
    ensures i < |path| - 1 ==> path[i + 1] in TriageSuccessors(path[i])
  {
  }
}
