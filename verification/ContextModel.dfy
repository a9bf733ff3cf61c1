/**
 * What a room context is: the inputs and their access decisions, the candidates
 * each category offers, and the greedy allocation under block and character
 * budgets, per category and in total.
 *
 * Hashes of blocks, access decisions and the whole context are functions of the
 * values kept here and are not repeated.
 */
module ContextModel {
  import opened Prelude
  import opened Sorting
  import opened Text

  const CONTRACT_VERSION := 1

  datatype Category = SummaryText | ReplyChain | RoomDelta | DocumentSlice | RetrievalHit | CurrentMessage

  datatype Reason =
    | AclDenied | AclBindingMismatch | InvalidSource | DuplicateSource | MessageNotBeforeCurrent
    | InvalidReplyChain | NotReplyAncestor | CoveredBySummary
    | CategoryBlockBudget | TotalBlockBudget | CategoryCharacterBudget | TotalCharacterBudget
    | InvalidSummaryVersion | InvalidSummaryRoom | InvalidSummaryContent | InvalidSummaryContentHash
    | InvalidSummarySequence | SummaryNotBeforeCurrent | InvalidSummarySourceHash | InvalidSummaryAclHash
    | InvalidSummaryConfigVersion

  // ----- inputs

  datatype Resource = RoomResource(roomId: string) | DocumentResource(documentId: string) | KnowledgeResource(sourceId: string)

  datatype Acl =
    | Deny
    | Allow(schemaVersion: int, organizationId: string, permission: string, principalType: string, agentId: string,
            roomSessionId: string, policyVersion: string, resource: Resource)

  datatype Message = Message(
    schemaVersion: int, envelopeType: string, messageId: string, organizationId: string, roomId: string, sequence: int,
    replyToMessageId: Option<string>, bySystem: bool, text: string)

  datatype MessageInput = MessageInput(message: Message, acl: Acl)

  datatype Slice = Slice(
    sliceId: string, documentId: string, revision: string, start: int, end: int, relevance: real, content: string, acl: Acl)

  datatype Hit = Hit(
    hitId: string, rank: int, score: real, indexId: string, indexVersion: string, sourceType: string, sourceId: string,
    content: string, acl: Acl)

  datatype Coverage = Coverage(fromSequence: int, throughSequence: int, sourceHash: string, aclHash: string)

  datatype Summary = Summary(
    schemaVersion: int, summaryId: string, organizationId: string, roomId: string, content: string, contentHash: string,
    source: Coverage, configVersion: string)

  datatype SummaryInput = SummaryInput(summary: Summary, expected: Coverage, acl: Acl)

  datatype Session = Session(organizationId: string, roomId: string, roomSessionId: string, agentId: string)

  datatype Limit = Limit(maxCharacters: int, maxBlocks: int)
  datatype Budget = Budget(
    schemaVersion: int, configVersion: string, summaryConfigVersion: string,
    maxTotalCharacters: int, maxTotalBlocks: int, categories: map<Category, Limit>)

  datatype Request = Request(
    session: Session, currentMessage: MessageInput, summary: Option<SummaryInput>, replyChain: seq<MessageInput>,
    roomDelta: seq<MessageInput>, slices: seq<Slice>, hits: seq<Hit>, budget: Budget)

  // ----- candidates

  datatype Trust = ControlInstruction | UserRequest | DataOnly(origin: string)

  datatype OrderPart = Number(n: int) | Word(text: string)

  datatype Provenance =
    | MessageSource(message: Message)
    | SummarySource(summary: Summary)
    | SliceSource(slice: Slice)
    | HitSource(hit: Hit)

  datatype Candidate = Candidate(
    category: Category, key: string, sourceId: string, content: string, source: Provenance, acl: Acl, trust: Trust,
    displayOrder: seq<OrderPart>)

  function MessageCandidate(input: MessageInput, category: Category): Candidate {
    Candidate(category, "room-message:" + input.message.messageId, input.message.messageId, input.message.text,
              MessageSource(input.message), input.acl,
              if input.message.bySystem then ControlInstruction
              else if category == CurrentMessage then UserRequest else DataOnly("room-participant"),
              [Number(input.message.sequence), Word(input.message.messageId)])
  }

  function SummaryCandidate(input: SummaryInput): Candidate {
    Candidate(SummaryText, "summary:" + input.summary.summaryId, input.summary.summaryId, input.summary.content,
              SummarySource(input.summary), input.acl, DataOnly("derived-summary"),
              [Number(input.summary.source.fromSequence), Word(input.summary.summaryId)])
  }

  function SliceCandidate(slice: Slice): Candidate {
    Candidate(DocumentSlice,
              "document:" + slice.documentId + ":" + slice.revision + ":" + Decimal(slice.start) + ":" + Decimal(slice.end),
              slice.sliceId, slice.content, SliceSource(slice), slice.acl, DataOnly("workspace-document"),
              [Word(slice.documentId), Number(slice.start), Number(slice.end), Word(slice.sliceId)])
  }

  function HitCandidate(hit: Hit): Candidate {
    Candidate(RetrievalHit, "retrieval:" + hit.hitId, hit.hitId, hit.content, HitSource(hit), hit.acl,
              DataOnly("retrieval"), [Number(hit.rank), Word(hit.hitId)])
  }

  // ----- who may read what

  datatype Access = Allowed | Denied | Mismatch

  function AclResult(acl: Acl, session: Session, resource: Resource): Access {
    if acl.Deny? then Denied
    else if acl.schemaVersion == CONTRACT_VERSION && acl.organizationId == session.organizationId
            && acl.permission == "context.read" && acl.principalType == "room-agent-session"
            && acl.agentId == session.agentId && acl.roomSessionId == session.roomSessionId
            && NonEmpty(acl.policyVersion) && acl.resource == resource
    then Allowed else Mismatch
  }

  function AccessReason(access: Access): Option<Reason> {
    match access
    case Allowed => None
    case Denied => Some(AclDenied)
    case Mismatch => Some(AclBindingMismatch)
  }

  predicate ValidMessage(input: MessageInput, session: Session, before: Option<int>) {
    var m := input.message;
    && m.schemaVersion == CONTRACT_VERSION && m.envelopeType == "room.message" && NonEmpty(m.messageId)
    && m.organizationId == session.organizationId && m.roomId == session.roomId
    && SafeInteger(m.sequence) && 0 <= m.sequence && (before.Some? ==> m.sequence < before.value)
  }

  predicate ValidSlice(slice: Slice) {
    && NonEmpty(slice.sliceId) && NonEmpty(slice.documentId) && NonEmpty(slice.revision)
    && SafeInteger(slice.start) && SafeInteger(slice.end) && 0 <= slice.start <= slice.end
    && slice.end - slice.start == |slice.content|
  }

  predicate ValidHit(hit: Hit) {
    && NonEmpty(hit.hitId) && SafeInteger(hit.rank) && 0 <= hit.rank && NonEmpty(hit.indexId)
    && NonEmpty(hit.indexVersion) && NonEmpty(hit.sourceType) && NonEmpty(hit.sourceId)
  }

  /** Why a summary may not stand in for the messages it covers. `digest` is the content hash. */
  function SummaryFault(input: SummaryInput, request: Request, digest: string -> string): Option<Reason> {
    var s, x := input.summary, input.expected;
    if s.schemaVersion != CONTRACT_VERSION then Some(InvalidSummaryVersion)
    else if s.organizationId != request.session.organizationId || s.roomId != request.session.roomId then Some(InvalidSummaryRoom)
    else if !NonEmpty(s.summaryId) || !NonEmpty(s.content) then Some(InvalidSummaryContent)
    else if !IsDigest(s.contentHash) || s.contentHash != digest(s.content) then Some(InvalidSummaryContentHash)
    else if !SafeInteger(s.source.fromSequence) || !SafeInteger(s.source.throughSequence)
            || s.source.fromSequence < 0 || s.source.throughSequence < s.source.fromSequence
            || s.source.fromSequence != x.fromSequence || s.source.throughSequence != x.throughSequence
    then Some(InvalidSummarySequence)
    else if s.source.throughSequence >= request.currentMessage.message.sequence then Some(SummaryNotBeforeCurrent)
    else if !IsDigest(s.source.sourceHash) || s.source.sourceHash != x.sourceHash then Some(InvalidSummarySourceHash)
    else if !IsDigest(s.source.aclHash) || s.source.aclHash != x.aclHash then Some(InvalidSummaryAclHash)
    else if s.configVersion != request.budget.summaryConfigVersion then Some(InvalidSummaryConfigVersion)
    else None
  }

  predicate Bounded(b: Budget, c: Category) {
    && c in b.categories && 0 <= b.categories[c].maxCharacters <= MAX_SAFE_INTEGER
    && 0 <= b.categories[c].maxBlocks <= MAX_SAFE_INTEGER
  }

  predicate ValidBudget(b: Budget) {
    && b.schemaVersion == CONTRACT_VERSION && NonEmpty(b.configVersion) && NonEmpty(b.summaryConfigVersion)
    && SafeInteger(b.maxTotalCharacters) && SafeInteger(b.maxTotalBlocks)
    && (forall c: Category :: c in b.categories) && (forall c: Category :: Bounded(b, c))
    && 1 <= b.maxTotalBlocks && 1 <= b.maxTotalCharacters
    && 1 <= b.categories[CurrentMessage].maxBlocks && 1 <= b.categories[CurrentMessage].maxCharacters
  }

  // ----- what each category offers

  datatype Usage = Usage(considered: nat, included: nat, excluded: nat, truncated: nat, usedCharacters: nat)

  /** One category: its counters, why entries were left out, and the candidates still in the running. */
  datatype Bin = Bin(usage: Usage, reasons: multiset<Reason>, candidates: seq<Candidate>)

  const EMPTY_BIN := Bin(Usage(0, 0, 0, 0, 0), multiset{}, [])

  function Times(reason: Reason, count: nat): multiset<Reason> {
    multiset{}[reason := count]
  }

  function Exclude(bin: Bin, reason: Reason, count: nat): Bin {
    bin.(usage := bin.usage.(excluded := bin.usage.excluded + count), reasons := bin.reasons + Times(reason, count))
  }

  function Consider(bin: Bin, count: nat): Bin {
    bin.(usage := bin.usage.(considered := bin.usage.considered + count))
  }

  function Add(bin: Bin, candidate: Candidate): Bin {
    bin.(candidates := bin.candidates + [candidate])
  }

  function CurrentBin(r: Request): Bin {
    Add(Consider(EMPTY_BIN, 1), MessageCandidate(r.currentMessage, CurrentMessage))
  }

  function RoomOf(r: Request): Resource {
    RoomResource(r.session.roomId)
  }

  function SummaryReason(r: Request, digest: string -> string): Option<Reason>
    requires r.summary.Some?
  {
    var access := AccessReason(AclResult(r.summary.value.acl, r.session, RoomOf(r)));
    if access.Some? then access else SummaryFault(r.summary.value, r, digest)
  }

  function SummaryBin(r: Request, digest: string -> string): Bin {
    if r.summary.None? then EMPTY_BIN
    else
      var reason := SummaryReason(r, digest);
      if reason.Some? then Exclude(Consider(EMPTY_BIN, 1), reason.value, 1)
      else Add(Consider(EMPTY_BIN, 1), SummaryCandidate(r.summary.value))
  }

  // ----- the categories that sort their entries and drop repeated ones

  /** How one kind of entry is checked, identified, ordered, authorised and presented. */
  datatype Intake<!T> = Intake(
    fault: T -> Option<Reason>, key: T -> string, before: (T, T) -> bool, access: T -> Access, card: T -> Candidate)

  function Sound<T>(intake: Intake<T>): T -> bool {
    x => intake.fault(x).None?
  }

  /** A key shared by several entries rules all of them out. */
  function Refused<T>(intake: Intake<T>, keys: multiset<string>): T -> Option<Reason> {
    x => if keys[intake.key(x)] > 1 then Some(DuplicateSource) else AccessReason(intake.access(x))
  }

  function Accepted<T>(intake: Intake<T>, keys: multiset<string>): T -> bool {
    x => Refused(intake, keys)(x).None?
  }

  function AsBag<T>(why: T -> Option<Reason>): T -> multiset<Reason> {
    x => if why(x).Some? then multiset{why(x).value} else multiset{}
  }

  function Bag<T>(s: seq<T>, why: T -> Option<Reason>): multiset<Reason> {
    SumOf(s, AsBag(why))
  }

  function AsKey<T>(key: T -> string): T -> multiset<string> {
    x => multiset{key(x)}
  }

  function Keys<T>(s: seq<T>, key: T -> string): multiset<string> {
    SumOf(s, AsKey(key))
  }

  function Cards<T>(s: seq<T>, card: T -> Candidate): seq<Candidate> {
    seq(|s|, i requires 0 <= i < |s| => card(s[i]))
  }

  function Gathered<T>(inputs: seq<T>, intake: Intake<T>): Bin {
    var valid := Filter(inputs, Sound(intake));
    var keys := Keys(valid, intake.key);
    var reasons := Bag(inputs, intake.fault) + Bag(valid, Refused(intake, keys));
    Bin(Usage(|inputs|, 0, |reasons|, 0, 0), reasons,
        Cards(Filter(Sort(valid, intake.before), Accepted(intake, keys)), intake.card))
  }

  predicate DeltaBefore(a: MessageInput, b: MessageInput) {
    if a.message.sequence != b.message.sequence then a.message.sequence > b.message.sequence
    else TextBefore(a.message.messageId, b.message.messageId)
  }

  function DeltaFault(session: Session, current: int, x: MessageInput): Option<Reason> {
    if ValidMessage(x, session, Some(current)) then None
    else if SafeInteger(x.message.sequence) && current <= x.message.sequence then Some(MessageNotBeforeCurrent)
    else Some(InvalidSource)
  }

  function DeltaIntake(session: Session, current: int): Intake<MessageInput> {
    Intake(x => DeltaFault(session, current, x), (x: MessageInput) => x.message.messageId, DeltaBefore,
           (x: MessageInput) => AclResult(x.acl, session, RoomResource(session.roomId)),
           x => MessageCandidate(x, RoomDelta))
  }

  predicate SliceBefore(a: Slice, b: Slice) {
    if a.relevance != b.relevance then a.relevance > b.relevance
    else if a.documentId != b.documentId then TextBefore(a.documentId, b.documentId)
    else if a.start != b.start then a.start < b.start
    else TextBefore(a.sliceId, b.sliceId)
  }

  function SliceKey(slice: Slice): string {
    slice.documentId + "\0" + slice.revision + "\0" + Decimal(slice.start) + "\0" + Decimal(slice.end)
  }

  function SliceIntake(session: Session): Intake<Slice> {
    Intake(x => if ValidSlice(x) then None else Some(InvalidSource), SliceKey, SliceBefore,
           (x: Slice) => AclResult(x.acl, session, DocumentResource(x.documentId)), SliceCandidate)
  }

  predicate HitBefore(a: Hit, b: Hit) {
    if a.rank != b.rank then a.rank < b.rank
    else if a.score != b.score then a.score > b.score
    else TextBefore(a.hitId, b.hitId)
  }

  function HitResource(hit: Hit): Resource {
    if hit.sourceType == "document" then DocumentResource(hit.sourceId) else KnowledgeResource(hit.sourceId)
  }

  function HitIntake(session: Session): Intake<Hit> {
    Intake(x => if ValidHit(x) then None else Some(InvalidSource), (x: Hit) => x.hitId, HitBefore,
           (x: Hit) => AclResult(x.acl, session, HitResource(x)), HitCandidate)
  }

  // ----- the reply walk

  function WithId(id: string): MessageInput -> bool {
    (x: MessageInput) => x.message.messageId == id
  }

  function Matches(replies: seq<MessageInput>, id: string): seq<MessageInput> {
    Filter(replies, WithId(id))
  }

  function IdsOf(replies: seq<MessageInput>): set<string> {
    set x | x in replies :: x.message.messageId
  }

  /** How far the walk along reply pointers got, and why it stopped. */
  datatype Walk = Walk(ancestors: seq<MessageInput>, reasons: multiset<Reason>, consumed: nat, revisited: bool)

  function WalkFrom(r: Request, id: Option<string>, before: int, visited: set<string>): Walk
    decreases IdsOf(r.replyChain) - visited
  {
    if id.None? || id.value == "" then Walk([], multiset{}, 0, false)
    else if id.value in visited then Walk([], multiset{InvalidReplyChain}, 0, true)
    else
      var matches := Matches(r.replyChain, id.value);
      if matches == [] then Walk([], multiset{}, 0, false)
      else if |matches| != 1 then Walk([], Times(DuplicateSource, |matches|), |matches|, false)
      else if !ValidMessage(matches[0], r.session, Some(before)) then Walk([], multiset{InvalidSource}, 1, false)
      else
        var reason := AccessReason(AclResult(matches[0].acl, r.session, RoomOf(r)));
        if reason.Some? then Walk([], multiset{reason.value}, 1, false)
        else
          assert matches[0] in r.replyChain && WithId(id.value)(matches[0]);
          assert id.value in IdsOf(r.replyChain) - visited;
          var rest := WalkFrom(r, matches[0].message.replyToMessageId, matches[0].message.sequence, visited + {id.value});
          Walk([matches[0]] + rest.ancestors, rest.reasons, rest.consumed + 1, rest.revisited)
  }

  function ReplyWalk(r: Request): Walk {
    WalkFrom(r, r.currentMessage.message.replyToMessageId, r.currentMessage.message.sequence, {})
  }

  function ReplyBin(r: Request): Bin {
    var walk := ReplyWalk(r);
    var unused := Max(|r.replyChain| - walk.consumed, 0);
    var reasons := walk.reasons + Times(NotReplyAncestor, unused);
    Bin(Usage(|r.replyChain|, 0, |reasons|, 0, 0), reasons,
        Cards(walk.ancestors, (x: MessageInput) => MessageCandidate(x, ReplyChain)))
  }

  // ----- allocation

  datatype Block = Block(candidate: Candidate, content: string)

  predicate Truncated(b: Block) {
    |b.content| < |b.candidate.content|
  }

  datatype Desk = Desk(
    bins: map<Category, Bin>, rows: seq<Block>, keys: set<string>, through: Option<int>,
    usedCharacters: nat, includedBlocks: nat)

  ghost predicate Complete(d: Desk) {
    forall c: Category :: c in d.bins
  }

  function Available(b: Budget, d: Desk, category: Category): int
    requires category in d.bins && category in b.categories
  {
    Min(b.categories[category].maxCharacters - d.bins[category].usage.usedCharacters,
        b.maxTotalCharacters - d.usedCharacters)
  }

  /** Why a candidate is passed over, in the order the checks are made. */
  function Refusal(b: Budget, d: Desk, c: Candidate): Option<Reason>
    requires c.category in d.bins && c.category in b.categories
  {
    var usage := d.bins[c.category].usage;
    if c.category == RoomDelta && d.through.Some? && c.source.MessageSource? && c.source.message.sequence <= d.through.value
    then Some(CoveredBySummary)
    else if c.key in d.keys then Some(DuplicateSource)
    else if usage.included >= b.categories[c.category].maxBlocks then Some(CategoryBlockBudget)
    else if d.includedBlocks >= b.maxTotalBlocks then Some(TotalBlockBudget)
    else if Available(b, d, c.category) <= 0 then
      Some(if b.maxTotalCharacters - d.usedCharacters <= 0 then TotalCharacterBudget else CategoryCharacterBudget)
    else None
  }

  function CutTo(content: string, available: int): string
    requires 0 < available
  {
    content[..Min(|content|, available)]
  }

  function Select(b: Budget, d: Desk, c: Candidate): Desk
    requires c.category in d.bins && c.category in b.categories && Refusal(b, d, c).None?
  {
    var content := CutTo(c.content, Available(b, d, c.category));
    var bin := d.bins[c.category];
    var truncated := |content| < |c.content|;
    Desk(d.bins[c.category := bin.(usage := bin.usage.(
           included := bin.usage.included + 1,
           usedCharacters := bin.usage.usedCharacters + |content|,
           truncated := bin.usage.truncated + if truncated then 1 else 0))],
         d.rows + [Block(c, content)], d.keys + {c.key},
         if c.category == SummaryText && !truncated && c.source.SummarySource?
         then Some(c.source.summary.source.throughSequence) else d.through,
         d.usedCharacters + |content|, d.includedBlocks + 1)
  }

  function Offer(b: Budget, d: Desk, c: Candidate): Desk
    requires c.category in d.bins && c.category in b.categories
  {
    var refusal := Refusal(b, d, c);
    if refusal.Some? then d.(bins := d.bins[c.category := Exclude(d.bins[c.category], refusal.value, 1)])
    else Select(b, d, c)
  }

  ghost predicate Roomy(b: Budget, d: Desk) {
    Complete(d) && forall c: Category :: c in b.categories
  }

  function OfferAll(b: Budget, d: Desk, cs: seq<Candidate>): (r: Desk)
    requires Roomy(b, d)
    ensures Roomy(b, r)
  {
    if cs == [] then d else Offer(b, OfferAll(b, d, cs[..|cs| - 1]), cs[|cs| - 1])
  }

  const ALLOCATION_ORDER := [CurrentMessage, SummaryText, ReplyChain, RoomDelta, DocumentSlice, RetrievalHit]


  function BinOf(r: Request, digest: string -> string, category: Category): Bin {
    match category
    case SummaryText => SummaryBin(r, digest)
    case ReplyChain => ReplyBin(r)
    case RoomDelta => Gathered(r.roomDelta, DeltaIntake(r.session, r.currentMessage.message.sequence))
    case DocumentSlice => Gathered(r.slices, SliceIntake(r.session))
    case RetrievalHit => Gathered(r.hits, HitIntake(r.session))
    case CurrentMessage => CurrentBin(r)
  }

  /** Every category filled, nothing selected yet. */
  function GatheredDesk(r: Request, digest: string -> string): (d: Desk)
    ensures Complete(d)
  {
    Desk(map c: Category | true :: BinOf(r, digest, c), [], {}, None, 0, 0)
  }

  function InOrder(d: Desk): seq<Candidate>
    requires Complete(d)
  {
    d.bins[CurrentMessage].candidates + d.bins[SummaryText].candidates + d.bins[ReplyChain].candidates
    + d.bins[RoomDelta].candidates + d.bins[DocumentSlice].candidates + d.bins[RetrievalHit].candidates
  }

  // ----- the result

  function DisplayRank(c: Category): nat {
    match c
    case SummaryText => 0
    case ReplyChain => 1
    case RoomDelta => 2
    case DocumentSlice => 3
    case RetrievalHit => 4
    case CurrentMessage => 5
  }

  /** The sign of the tuple comparison: negative, zero or positive. */
  function CompareTuple(a: seq<OrderPart>, b: seq<OrderPart>): int {
    if a == [] && b == [] then 0
    else if a == [] then -1
    else if b == [] then 1
    else if a[0] == b[0] then CompareTuple(a[1..], b[1..])
    else if a[0].Number? && b[0].Number? then a[0].n - b[0].n
    else if TextBefore(PartText(a[0]), PartText(b[0])) then -1
    else if TextBefore(PartText(b[0]), PartText(a[0])) then 1
    else 0
  }

  function PartText(p: OrderPart): string {
    if p.Word? then p.text else Decimal(p.n)
  }

  predicate DisplayBefore(a: Block, b: Block) {
    if a.candidate.category != b.candidate.category
    then DisplayRank(a.candidate.category) < DisplayRank(b.candidate.category)
    else CompareTuple(a.candidate.displayOrder, b.candidate.displayOrder) < 0
  }

  datatype BuildError = InvalidBudget | InvalidCurrentMessage | CurrentMessageAccessDenied | CurrentMessageAclMismatch

  /** The blocks in display order and the trace: counters and reasons per category, and the totals. */
  datatype Context = Context(
    blocks: seq<Block>, usage: map<Category, Usage>, reasons: map<Category, multiset<Reason>>,
    usedCharacters: nat, includedBlocks: nat)

  datatype Result = Built(context: Context) | Failed(error: BuildError)

  ghost function Fault(r: Request): Option<BuildError> {
    if !ValidBudget(r.budget) then Some(InvalidBudget)
    else if !ValidMessage(r.currentMessage, r.session, None) then Some(InvalidCurrentMessage)
    else
      match AclResult(r.currentMessage.acl, r.session, RoomOf(r))
      case Denied => Some(CurrentMessageAccessDenied)
      case Mismatch => Some(CurrentMessageAclMismatch)
      case Allowed => None
  }

  ghost function Allocated(r: Request, digest: string -> string): Desk
    requires ValidBudget(r.budget)
  {
    assert forall c: Category :: c in r.budget.categories;
    var d := GatheredDesk(r, digest);
    OfferAll(r.budget, d, InOrder(d))
  }

  function Present(d: Desk): Context {
    Context(Sort(d.rows, DisplayBefore), map c | c in d.bins :: d.bins[c].usage, map c | c in d.bins :: d.bins[c].reasons,
            d.usedCharacters, d.includedBlocks)
  }

  ghost function Build(r: Request, digest: string -> string): Result {
    var fault := Fault(r);
    if fault.Some? then Failed(fault.value) else Built(Present(Allocated(r, digest)))
  }
}
