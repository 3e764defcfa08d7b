/** Minimum-context assembly: screen candidates, let one item speak for each claim, order the
    winners and pack them into an item and a byte budget. */
module ContextCompiler {
  import opened Orders
  import opened Collections

  // ---------------------------------------------------------------- entities

  datatype Kind =
    Instruction | Objective | Requirement | Constraint | DecisionKind | Architecture
    | ArtifactReference | EvidenceReference | Finding | Learning | ConversationExcerpt
    | ToolContract | SecretReference | ExternalFact | AssumptionKind

  datatype Source =
    OrganizationPolicy | ProjectPolicy | UserInstruction | CanonicalState | GovernedContract
    | VerifiedEvidence | ExternalSource | LiaisonSummary | AssumptionSource

  datatype Sensitivity = Public | Internal | Confidential | Restricted | Secret

  datatype Integrity = Authoritative | Verified | Unverified | AssumptionIntegrity

  datatype Item = Item(
    id: string, revision: string, kind: Kind, sourceType: Source, sourceRef: string,
    sensitivity: Sensitivity, integrity: Integrity, projectId: string, createdAt: string,
    claimKey: string, content: Option<string>, reference: Option<string>,
    entityIds: seq<string>, stages: seq<string>, modes: seq<string>, roles: seq<string>,
    relevanceTags: seq<string>, alwaysInclude: bool, expiresAt: Option<int>)

  datatype Rendered = Rendered(
    id: string, revision: string, kind: Kind, sourceType: Source, sourceRef: string,
    sensitivity: Sensitivity, integrity: Integrity, claimKey: string,
    content: Option<string>, reference: Option<string>)

  datatype Recipe = Recipe(
    id: string, version: string, role: string, allowedKinds: seq<Kind>, requiredKinds: seq<Kind>,
    allowedSources: seq<Source>, maxSensitivity: Sensitivity, maxItems: int, maxBytes: int,
    kindPriority: seq<Kind>, toolAllowlist: seq<string>, networkAllowlist: seq<string>)

  datatype Run = Run(
    runId: string, projectId: string, role: string, stage: Option<string>,
    entityIds: seq<string>, modes: seq<string>, taskTags: seq<string>)

  datatype Grant = Grant(
    id: string, projectId: string, recipientRole: string, authority: string,
    itemIds: seq<string>, runIds: seq<string>, expiresAt: int)

  datatype Exclusion = Exclusion(itemId: string, reason: string)

  datatype Body = Body(
    runId: string, role: string, recipeId: string, recipeVersion: string, generatedAt: int,
    selectedItems: seq<Rendered>, toolAllowlist: seq<string>, networkAllowlist: seq<string>,
    totalBytes: int)

  datatype Manifest = Manifest(
    manifestId: string, body: Body, exclusions: seq<Exclusion>, sha256: string)

  datatype ContextError =
    InvalidRecipe | InvalidRun | RoleMismatch | InvalidGrant | InvalidCandidate
    | EqualAuthorityConflict | RequiredKindsUnavailable

  /** JSON encoding: the byte length of a rendered item and the SHA-256 of a manifest body. */
  datatype Serializer = Serializer(size: Rendered -> nat, digest: Body -> string)

  /** Everything one compilation is made against except its candidates. */
  datatype Request = Request(recipe: Recipe, run: Run, grants: seq<Grant>, now: int, json: Serializer)

  function Authority(s: Source): int {
    match s
    case OrganizationPolicy => 100
    case ProjectPolicy => 95
    case UserInstruction => 90
    case CanonicalState => 85
    case GovernedContract => 80
    case VerifiedEvidence => 70
    case ExternalSource => 40
    case LiaisonSummary => 20
    case AssumptionSource => 10
  }

  function Rank(s: Sensitivity): nat {
    match s
    case Public => 0
    case Internal => 1
    case Confidential => 2
    case Restricted => 3
    case Secret => 4
  }

  // ---------------------------------------------------------------- validation

  predicate ValidItem(i: Item) {
    && (i.sourceType == ExternalSource || i.sourceType == LiaisonSummary ==> i.integrity != Authoritative)
    && (i.sourceType == AssumptionSource ==> i.integrity == AssumptionIntegrity && i.kind == AssumptionKind)
    && (i.kind == AssumptionKind ==> i.integrity == AssumptionIntegrity)
    && NoDuplicates(i.entityIds) && NoDuplicates(i.stages) && NoDuplicates(i.modes)
    && NoDuplicates(i.roles) && NoDuplicates(i.relevanceTags)
    && (if i.kind == SecretReference then
          i.reference.Some? && i.content.None? && i.sensitivity == Secret
        else
          i.content.Some? && i.reference.None? && i.sensitivity != Secret)
  }

  predicate ValidRecipe(r: Recipe) {
    && NoDuplicates(r.allowedKinds) && NoDuplicates(r.requiredKinds) && NoDuplicates(r.allowedSources)
    && (forall k :: k in r.requiredKinds ==> k in r.allowedKinds)
    && r.maxItems >= 1 && r.maxBytes >= 1
    && NoDuplicates(r.kindPriority)
    && (forall k :: k in r.kindPriority ==> k in r.allowedKinds)
    && (forall k :: k in r.allowedKinds ==> k in r.kindPriority)
    && NoDuplicates(r.toolAllowlist) && NoDuplicates(r.networkAllowlist)
  }

  predicate ValidRun(r: Run) {
    NoDuplicates(r.entityIds) && NoDuplicates(r.modes) && NoDuplicates(r.taskTags) && r.taskTags != []
  }

  predicate ValidGrant(g: Grant) {
    && g.itemIds != [] && NoDuplicates(g.itemIds)
    && g.runIds != [] && NoDuplicates(g.runIds)
    && g.authority in {"organization_policy", "project_policy", "user_decision"}
  }

  function ItemId(): Item -> string {
    (i: Item) => i.id
  }

  // ---------------------------------------------------------------- screening

  predicate Overlaps(declared: seq<string>, active: seq<string>) {
    declared == [] || exists x :: x in declared && x in active
  }

  predicate ScopeMatches(i: Item, run: Run) {
    && i.projectId == run.projectId
    && Overlaps(i.entityIds, run.entityIds)
    && Overlaps(i.stages, if run.stage.Some? then [run.stage.value] else [])
    && Overlaps(i.modes, run.modes)
    && Overlaps(i.roles, [run.role])
  }

  predicate Grants(g: Grant, i: Item, run: Run, now: int) {
    && g.projectId == run.projectId && g.recipientRole == run.role
    && run.runId in g.runIds && i.id in g.itemIds && now <= g.expiresAt
  }

  predicate HasGrant(i: Item, run: Run, grants: seq<Grant>, now: int) {
    exists g :: g in grants && Grants(g, i, run, now)
  }

  /** The first reason, in the compiler's order, that keeps an item out before claims are compared. */
  function Screen(i: Item, q: Request): Option<string> {
    if i.kind !in q.recipe.allowedKinds then Some("kind not allowed by recipe")
    else if i.sourceType !in q.recipe.allowedSources then Some("source not allowed by recipe")
    else if Rank(i.sensitivity) > Rank(q.recipe.maxSensitivity) then Some("sensitivity exceeds recipe")
    else if !ScopeMatches(i, q.run) then Some("outside run scope")
    else if i.expiresAt.Some? && q.now > i.expiresAt.value then Some("context item expired")
    else if i.sensitivity in {Confidential, Restricted, Secret} && !HasGrant(i, q.run, q.grants, q.now) then
      Some("exact disclosure grant missing")
    else if !i.alwaysInclude && !(exists t :: t in i.relevanceTags && t in q.run.taskTags) then
      Some("not relevant to run task tags")
    else None
  }

  function Passes(q: Request): Item -> bool {
    (i: Item) => Screen(i, q).None?
  }

  function Eligible(candidates: seq<Item>, q: Request): seq<Item> {
    Filter(candidates, Passes(q))
  }

  // ---------------------------------------------------------------- claims

  function Payload(i: Item): string {
    if i.content.Some? then i.content.value else if i.reference.Some? then i.reference.value else ""
  }

  /** `x` takes precedence over `y` (or is `y`): authority, then later creation, then larger id. */
  predicate Precedes(x: Item, y: Item) {
    if Authority(x.sourceType) != Authority(y.sourceType) then Authority(x.sourceType) > Authority(y.sourceType)
    else if x.createdAt != y.createdAt then StrLeq(y.createdAt, x.createdAt)
    else StrLeq(y.id, x.id)
  }

  /** `x` is the item that speaks for its claim. */
  predicate Wins(eligible: seq<Item>, x: Item) {
    forall y :: y in eligible && y.claimKey == x.claimKey ==> Precedes(x, y)
  }

  predicate HighestAuthority(eligible: seq<Item>, x: Item) {
    forall y :: y in eligible && y.claimKey == x.claimKey ==> Authority(y.sourceType) <= Authority(x.sourceType)
  }

  /** Two items of the highest authority on one claim say different things. */
  predicate Contradictory(eligible: seq<Item>) {
    exists x, y :: x in eligible && y in eligible && x.claimKey == y.claimKey
      && HighestAuthority(eligible, x) && HighestAuthority(eligible, y) && Payload(x) != Payload(y)
  }

  function WinsIn(eligible: seq<Item>): Item -> bool {
    (x: Item) => Wins(eligible, x)
  }

  function Speaks(eligible: seq<Item>, claimKey: string): Item -> bool {
    (x: Item) => x.claimKey == claimKey && Wins(eligible, x)
  }

  function KindIndex(priority: seq<Kind>, kind: Kind): nat {
    if priority == [] || priority[0] == kind then 0 else 1 + KindIndex(priority[1..], kind)
  }

  /** The packing key: always-included first, then authority, then kind priority, then id. */
  predicate PacksBefore(a: Item, b: Item, priority: seq<Kind>) {
    if a.alwaysInclude != b.alwaysInclude then a.alwaysInclude
    else if Authority(a.sourceType) != Authority(b.sourceType) then Authority(a.sourceType) > Authority(b.sourceType)
    else if KindIndex(priority, a.kind) != KindIndex(priority, b.kind) then
      KindIndex(priority, a.kind) < KindIndex(priority, b.kind)
    else StrLeq(a.id, b.id)
  }

  function PackOrder(priority: seq<Kind>): (Item, Item) -> bool {
    (a: Item, b: Item) => PacksBefore(a, b, priority)
  }

  function Resolved(eligible: seq<Item>, priority: seq<Kind>): seq<Item> {
    SortBy(Filter(eligible, WinsIn(eligible)), PackOrder(priority))
  }

  // ---------------------------------------------------------------- packing

  function Render(i: Item): Rendered {
    Rendered(i.id, i.revision, i.kind, i.sourceType, i.sourceRef, i.sensitivity, i.integrity,
             i.claimKey, i.content, i.reference)
  }

  function Rendering(): Item -> Rendered {
    (i: Item) => Render(i)
  }

  function Bytes(items: seq<Item>, size: Rendered -> nat): nat {
    if items == [] then 0 else size(Render(items[0])) + Bytes(items[1..], size)
  }

  /** First-fit packing in order: which items are taken with this many slots and bytes left. */
  function Pack(items: seq<Item>, slots: int, room: int, size: Rendered -> nat): (picks: seq<bool>)
    ensures |picks| == |items|
  {
    if items == [] then []
    else
      var n := size(Render(items[0]));
      if slots <= 0 || n > room then [false] + Pack(items[1..], slots, room, size)
      else [true] + Pack(items[1..], slots - 1, room - n, size)
  }

  // ---------------------------------------------------------------- the manifest

  function Selection(candidates: seq<Item>, q: Request): seq<Item> {
    var resolved := Resolved(Eligible(candidates, q), q.recipe.kindPriority);
    Picked(resolved, Pack(resolved, q.recipe.maxItems, q.recipe.maxBytes, q.json.size))
  }

  function BudgetExhausted(): string {
    "context budget exhausted"
  }

  function SupersededBy(winnerId: string): string {
    "superseded by higher-precedence " + winnerId
  }

  function SpeakerId(eligible: seq<Item>, claimKey: string): string {
    var speakers := Filter(eligible, Speaks(eligible, claimKey));
    if speakers == [] then "" else speakers[0].id
  }

  /** Why a candidate is left out of a manifest with this selection, if it is. */
  function ReasonFor(x: Item, eligible: seq<Item>, selection: seq<Item>, q: Request): Option<string> {
    if Screen(x, q).Some? then Screen(x, q)
    else if !Wins(eligible, x) then
      Some(SupersededBy(SpeakerId(eligible, x.claimKey)))
    else if x !in selection then Some(BudgetExhausted())
    else None
  }

  function LeftOut(eligible: seq<Item>, selection: seq<Item>, q: Request): Item -> bool {
    (x: Item) => ReasonFor(x, eligible, selection, q).Some?
  }

  function Excluding(eligible: seq<Item>, selection: seq<Item>, q: Request): Item -> Exclusion {
    (x: Item) =>
      var reason := ReasonFor(x, eligible, selection, q);
      Exclusion(x.id, if reason.Some? then reason.value else "")
  }

  function ExclusionOrder(): (Exclusion, Exclusion) -> bool {
    (a: Exclusion, b: Exclusion) => StrLeq(a.itemId, b.itemId)
  }

  function Exclusions(candidates: seq<Item>, q: Request): seq<Exclusion> {
    var eligible := Eligible(candidates, q);
    var selection := Selection(candidates, q);
    SortBy(Map(Excluding(eligible, selection, q), Filter(candidates, LeftOut(eligible, selection, q))),
           ExclusionOrder())
  }

  predicate KindsCovered(required: seq<Kind>, selection: seq<Item>) {
    forall k :: k in required ==> exists x :: x in selection && x.kind == k
  }

  function ManifestOf(selection: seq<Item>, totalBytes: int, exclusions: seq<Exclusion>, q: Request): Manifest {
    var body := Body(q.run.runId, q.run.role, q.recipe.id, q.recipe.version, q.now,
                     Map(Rendering(), selection), q.recipe.toolAllowlist, q.recipe.networkAllowlist, totalBytes);
    var digest := q.json.digest(body);
    Manifest("CTX-" + q.run.runId + "-" + (if |digest| < 12 then digest else digest[..12]),
             body, exclusions, digest)
  }

  function CheckRequest(q: Request): Option<ContextError> {
    if !ValidRecipe(q.recipe) then Some(InvalidRecipe)
    else if !ValidRun(q.run) then Some(InvalidRun)
    else if q.run.role != q.recipe.role then Some(RoleMismatch)
    else if exists g :: g in q.grants && !ValidGrant(g) then Some(InvalidGrant)
    else None
  }

  predicate ValidCandidates(candidates: seq<Item>) {
    (forall x :: x in candidates ==> ValidItem(x)) && NoDuplicates(Map(ItemId(), candidates))
  }

  function Compile(candidates: seq<Item>, q: Request): Result<Manifest, ContextError> {
    match CheckRequest(q)
    case Some(error) => Failure(error)
    case None =>
      if !ValidCandidates(candidates) then Failure(InvalidCandidate)
      else if Contradictory(Eligible(candidates, q)) then Failure(EqualAuthorityConflict)
      else
        var selection := Selection(candidates, q);
        if !KindsCovered(q.recipe.requiredKinds, selection) then Failure(RequiredKindsUnavailable)
        else Success(ManifestOf(selection, Bytes(selection, q.json.size), Exclusions(candidates, q), q))
  }
}
