/**
 * The stored digest of older room messages: every load folds the messages since
 * the last one into the stored text. The proofs say that the stored text is what
 * folding everything at once would give, and that no message is skipped or folded
 * twice.
 *
 * A message's rendered line -- sequence, actor and the redacted, shortened text --
 * is a field of the message.
 */
module RoomDigest {
  import opened Prelude
  import opened Sorting
  import opened Text

  const HEADER := "Durable Room digest (untrusted context):"

  // ----- lines and text

  function Join(lines: seq<string>): string {
    if lines == [] then ""
    else if |lines| == 1 then lines[0]
    else lines[0] + "\n" + Join(lines[1..])
  }

  function Split(s: string): (parts: seq<string>)
    ensures parts != []
  {
    if s == "" then [""]
    else
      var rest := Split(s[1..]);
      if s[0] == '\n' then [""] + rest else [[s[0]] + rest[0]] + rest[1..]
  }

  /** What a reader of the stored text can rely on in each line. */
  predicate ProperLine(line: string, max: nat) {
    line != "" && line != HEADER && '\n' !in line && |HEADER| + 1 + |line| <= max
  }

  function KeptLine(): string -> bool {
    (line: string) => line != "" && line != HEADER
  }

  function Body(lines: seq<string>): string {
    HEADER + "\n" + Join(lines)
  }

  /** Drops the oldest lines until the text fits, always leaving one. */
  function Trim(lines: seq<string>, max: nat): (r: seq<string>)
    ensures |r| <= |lines|
  {
    if |lines| > 1 && |Body(lines)| > max then Trim(lines[1..], max) else lines
  }

  function Cut(s: string, max: nat): string {
    if |s| <= max then s else s[..max]
  }

  function Lines(stored: string): seq<string> {
    Filter(Split(stored), KeptLine())
  }

  function Digest(previous: string, appended: seq<string>, max: nat): string {
    Cut(Body(Trim(Lines(previous) + appended, max)), max)
  }

  method BuildSummaryContent(previous: string, appended: seq<string>, max: nat) returns (content: string)
    ensures content == Digest(previous, appended, max)
  {
    var existing := Filter(Split(previous), KeptLine());
    var lines := existing + appended;
    while |lines| > 1 && |Body(lines)| > max
      invariant Trim(lines, max) == Trim(existing + appended, max)
      decreases |lines|
    {
      lines := lines[1..];
    }
    content := Body(lines);
    if |content| > max { content := content[..max]; }
  }

  // ----- reading back what was written

  lemma {:induction false} SplitLine(line: string)
    requires '\n' !in line
    ensures Split(line) == [line]
  {
    if line != "" {
      assert forall c | c in line[1..] :: c in line;
      SplitLine(line[1..]);
      assert [line[0]] + line[1..] == line;
    }
  }

  lemma {:induction false} SplitAtBreak(line: string, rest: string)
    requires '\n' !in line
    ensures Split(line + "\n" + rest) == [line] + Split(rest)
  {
    var s := line + "\n" + rest;
    if line == "" {
      assert s[1..] == rest;
    } else {
      assert forall c | c in line[1..] :: c in line;
      assert s[1..] == line[1..] + "\n" + rest;
      SplitAtBreak(line[1..], rest);
      assert [line[0]] + line[1..] == line;
    }
  }

  lemma {:induction false} SplitJoin(lines: seq<string>)
    requires lines != [] && forall line | line in lines :: '\n' !in line
    ensures Split(Join(lines)) == lines
  {
    if |lines| == 1 {
      SplitLine(lines[0]);
    } else {
      assert forall line | line in lines[1..] :: line in lines;
      SplitJoin(lines[1..]);
      SplitAtBreak(lines[0], Join(lines[1..]));
    }
  }

  lemma FilterOne(line: string)
    ensures Filter([line], KeptLine()) == if line != "" && line != HEADER then [line] else []
  {
    assert [line][..0] == [];
    assert Filter([line][..0], KeptLine()) == [];
  }

  lemma BodySplits(lines: seq<string>, max: nat)
    requires forall line | line in lines :: ProperLine(line, max)
    ensures Split(Body(lines)) == [HEADER] + if lines == [] then [""] else lines
  {
    NoBreaks(lines, max);
    if lines != [] { SplitJoin(lines); }
    SplitAtBreak(HEADER, Join(lines));
    hide Split;
  }

  lemma NoBreaks(lines: seq<string>, max: nat)
    requires forall line | line in lines :: ProperLine(line, max)
    ensures '\n' !in HEADER && forall line | line in lines :: '\n' !in line
  {
  }

  lemma ProperIsKept(lines: seq<string>, max: nat)
    requires forall line | line in lines :: ProperLine(line, max)
    ensures Filter(lines, KeptLine()) == lines
  {
    FilterAll(lines, KeptLine());
  }

  lemma LinesAre(stored: string)
    ensures Lines(stored) == Filter(Split(stored), KeptLine())
  {
  }

  /** The lines of a digest are the lines it was made of. */
  lemma BodyReadsBack(lines: seq<string>, max: nat)
    requires forall line | line in lines :: ProperLine(line, max)
    ensures Lines(Body(lines)) == lines
  {
    hide *;
    BodySplits(lines, max);
    LinesAre(Body(lines));
    FilterConcat([HEADER], if lines == [] then [""] else lines, KeptLine());
    FilterOne(HEADER);
    FilterOne("");
    ProperIsKept(lines, max);
  }

  // ----- trimming

  lemma {:induction false} JoinGrows(a: seq<string>, b: seq<string>)
    requires a != []
    ensures |Join(a)| <= |Join(a + b)|
  {
    if |a| == 1 {
      if b == [] { assert a + b == a; } else { assert (a + b)[0] == a[0] && |a + b| > 1; }
    } else {
      assert (a + b)[1..] == a[1..] + b && (a + b)[0] == a[0];
      JoinGrows(a[1..], b);
    }
  }

  /** Trimming early or late makes no difference. */
  lemma {:induction false} TrimTwice(x: seq<string>, b: seq<string>, max: nat)
    ensures Trim(Trim(x, max) + b, max) == Trim(x + b, max)
  {
    if |x| > 1 && |Body(x)| > max {
      TrimTwice(x[1..], b, max);
      JoinGrows(x, b);
      assert (x + b)[1..] == x[1..] + b;
    }
  }

  lemma {:induction false} TrimIsSuffix(x: seq<string>, max: nat)
    ensures forall line | line in Trim(x, max) :: line in x
    ensures x != [] ==> Trim(x, max) != []
    ensures |Trim(x, max)| > 1 ==> |Body(Trim(x, max))| <= max
    ensures Trim(x, max) == x[|x| - |Trim(x, max)|..]
    decreases |x|
  {
    if |x| > 1 && |Body(x)| > max {
      TrimIsSuffix(x[1..], max);
      assert forall line | line in x[1..] :: line in x;
    }
  }

  /** With proper lines nothing is ever cut inside a line. */
  lemma TrimFits(x: seq<string>, max: nat)
    requires (forall line | line in x :: ProperLine(line, max)) && |HEADER| + 1 <= max
    ensures |Body(Trim(x, max))| <= max
  {
    TrimIsSuffix(x, max);
    var t := Trim(x, max);
    if |t| == 1 { assert t[0] in x; }
  }

  /** As few lines are dropped as the limit allows, and the oldest ones. */
  lemma {:induction false} TrimDropsFewest(lines: seq<string>, max: nat)
    ensures
      var k := |lines| - |Trim(lines, max)|;
      && Trim(lines, max) == lines[k..] && (0 < k ==> |Body(lines[k - 1..])| > max)
      && (|Trim(lines, max)| <= 1 || |Body(Trim(lines, max))| <= max)
  {
    hide Body;
    if |lines| > 1 && |Body(lines)| > max {
      TrimDropsFewest(lines[1..], max);
      var k := |lines[1..]| - |Trim(lines[1..], max)|;
      assert lines[1..][k..] == lines[k + 1..];
      assert 0 < k ==> lines[1..][k - 1..] == lines[k..];
      assert lines[0..] == lines;
    }
  }

  ghost predicate Proper(lines: seq<string>, max: nat) {
    |HEADER| + 1 <= max && forall line | line in lines :: ProperLine(line, max)
  }

  /** A digest made of proper lines is within the limit, uncut, and reads back as its trimmed lines. */
  lemma DigestReadsBack(previous: string, a: seq<string>, max: nat)
    requires Proper(Lines(previous) + a, max)
    ensures |Digest(previous, a, max)| <= max
    ensures Lines(Digest(previous, a, max)) == Trim(Lines(previous) + a, max)
  {
    var x := Lines(previous) + a;
    TrimFits(x, max);
    TrimIsSuffix(x, max);
    BodyReadsBack(Trim(x, max), max);
    hide Lines, Trim, Body;
  }

  /** Folding A and then B into the stored digest gives the text of folding them at once, within the limit. */
  lemma IncrementalIsBatch(previous: string, a: seq<string>, b: seq<string>, max: nat)
    requires Proper(Lines(previous) + a + b, max)
    ensures Digest(Digest(previous, a, max), b, max) == Digest(previous, a + b, max)
    ensures |Digest(previous, a + b, max)| <= max
  {
    var x := Lines(previous) + a;
    assert Proper(x, max) by { assert forall line | line in x :: line in x + b; }
    assert x + b == Lines(previous) + (a + b);
    DigestReadsBack(previous, a, max);
    DigestReadsBack(previous, a + b, max);
    TrimTwice(x, b, max);
    hide Lines, Trim, Body, Cut, Proper;
  }

  // ----- the cached row and its reloads

  datatype RoomMessage = RoomMessage(sequence: nat, line: string)

  datatype Stored = Stored(
    organizationId: string, roomId: string, roomSessionId: string, configVersion: string, aclHash: string,
    fromSequence: int, throughSequence: int, sourceHash: string, content: string, contentHash: string)

  datatype Query = Query(
    organizationId: string, roomId: string, roomSessionId: string, configVersion: string, aclHash: string,
    currentSequence: int, delta: seq<int>, limit: nat, max: nat)

  predicate Reusable(s: Stored, q: Query, digest: string -> string) {
    && s.organizationId == q.organizationId && s.roomId == q.roomId && s.roomSessionId == q.roomSessionId
    && s.configVersion == q.configVersion && s.aclHash == q.aclHash
    && IsDigest(s.sourceHash) && IsDigest(s.aclHash) && IsDigest(s.contentHash) && s.contentHash == digest(s.content)
    && NonEmpty(s.content) && SafeInteger(s.fromSequence) && SafeInteger(s.throughSequence)
    && 0 <= s.fromSequence <= s.throughSequence < q.currentSequence
  }

  function Oldest(delta: seq<int>, current: int): (r: int)
    ensures r <= current && (forall d | d in delta :: r <= d) && (r == current || r in delta)
  {
    if delta == [] then current
    else
      assert delta == delta[..|delta| - 1] + [delta[|delta| - 1]];
      Min(Oldest(delta[..|delta| - 1], current), delta[|delta| - 1])
  }

  function InRange(low: int, high: int): RoomMessage -> bool {
    (m: RoomMessage) => low < m.sequence <= high
  }

  /** The room's messages after `low`, up to and with `high`. */
  function Between(room: seq<RoomMessage>, low: int, high: int): seq<RoomMessage> {
    Filter(room, InRange(low, high))
  }

  ghost predicate Rising(room: seq<RoomMessage>) {
    forall i, j | 0 <= i < j < |room| :: room[i].sequence < room[j].sequence
  }

  function Previous(stored: Option<Stored>, q: Query, digest: string -> string): Option<Stored> {
    if stored.Some? && Reusable(stored.value, q, digest) && 0 < Oldest(q.delta, q.currentSequence) then stored else None
  }

  /** The messages this load folds: the next ones after a reusable row, else the latest ones. */
  function Loaded(room: seq<RoomMessage>, stored: Option<Stored>, q: Query, digest: string -> string): seq<RoomMessage> {
    var through := Oldest(q.delta, q.currentSequence) - 1;
    if through < 0 then []
    else
      var previous := Previous(stored, q, digest);
      var window := Between(room, if previous.Some? then previous.value.throughSequence else -1, through);
      if |window| <= q.limit then window
      else if previous.Some? then window[..q.limit] else window[|window| - q.limit..]
  }

  function TextOf(messages: seq<RoomMessage>): seq<string> {
    seq(|messages|, i requires 0 <= i < |messages| => messages[i].line)
  }

  /** The row that folding these messages onto the previous one writes. */
  function Row(previous: Option<Stored>, messages: seq<RoomMessage>, q: Query, digest: string -> string,
               chain: (Option<Stored>, seq<RoomMessage>) -> string): Stored
    requires messages != []
  {
    var content := Digest(if previous.Some? then previous.value.content else "", TextOf(messages), q.max);
    Stored(q.organizationId, q.roomId, q.roomSessionId, q.configVersion, q.aclHash,
           if previous.Some? then previous.value.fromSequence else messages[0].sequence,
           messages[|messages| - 1].sequence, chain(previous, messages), content, digest(content))
  }

  /** The row after a load; `chain` is the hash over the previous row's coverage and the new messages. */
  function Reload(room: seq<RoomMessage>, stored: Option<Stored>, q: Query, digest: string -> string,
                  chain: (Option<Stored>, seq<RoomMessage>) -> string): Option<Stored>
  {
    var messages := Loaded(room, stored, q, digest);
    var previous := Previous(stored, q, digest);
    if messages == [] || messages[|messages| - 1].sequence >= q.currentSequence then stored
    else Some(Row(previous, messages, q, digest, chain))
  }

  /** The summary a context is built with: a reused row as it is, or the row just written. */
  function Told(room: seq<RoomMessage>, stored: Option<Stored>, q: Query, digest: string -> string,
                chain: (Option<Stored>, seq<RoomMessage>) -> string): Option<Stored>
  {
    var messages := Loaded(room, stored, q, digest);
    if messages == [] then Previous(stored, q, digest) else Reload(room, stored, q, digest, chain)
  }

  // ----- which messages a load folds, in terms of the query

  /** Before the current message and before every message of the delta. */
  predicate BeforeDelta(q: Query, sequence: int) {
    sequence < q.currentSequence && forall d | d in q.delta :: sequence < d
  }

  function IsWaiting(q: Query, low: int): RoomMessage -> bool {
    (m: RoomMessage) => low < m.sequence && BeforeDelta(q, m.sequence)
  }

  /** The room's messages after `low` that the delta does not show. */
  function Waiting(room: seq<RoomMessage>, low: int, q: Query): seq<RoomMessage> {
    Filter(room, IsWaiting(q, low))
  }

  lemma {:induction false} FilterAgrees<T>(s: seq<T>, p: T -> bool, p': T -> bool)
    requires forall x | x in s :: p(x) == p'(x)
    ensures Filter(s, p) == Filter(s, p')
  {
    if s != [] {
      assert s[|s| - 1] in s && forall x | x in s[..|s| - 1] :: x in s;
      FilterAgrees(s[..|s| - 1], p, p');
    }
  }

  lemma WaitingIs(room: seq<RoomMessage>, low: int, q: Query)
    ensures Between(room, low, Oldest(q.delta, q.currentSequence) - 1) == Waiting(room, low, q)
  {
    FilterAgrees(room, InRange(low, Oldest(q.delta, q.currentSequence) - 1), IsWaiting(q, low));
  }

  lemma {:induction false} NoneWaits(room: seq<RoomMessage>, low: int, high: int)
    requires high < 0
    ensures Between(room, low, high) == []
  {
    if room != [] { NoneWaits(room[..|room| - 1], low, high); }
  }

  /**
   * A load folds what waits between the row it found usable and the delta: the first
   * ones, up to the limit, after such a row, and the last ones without it.
   */
  lemma LoadedIs(room: seq<RoomMessage>, stored: Option<Stored>, q: Query, digest: string -> string)
    ensures
      var reused := stored.Some? && Reusable(stored.value, q, digest);
      var w := Waiting(room, if reused then stored.value.throughSequence else -1, q);
      Loaded(room, stored, q, digest)
        == if |w| <= q.limit then w else if reused then w[..q.limit] else w[|w| - q.limit..]
  {
    var through := Oldest(q.delta, q.currentSequence) - 1;
    var low := if stored.Some? && Reusable(stored.value, q, digest) then stored.value.throughSequence else -1;
    WaitingIs(room, low, q);
    if through < 0 { NoneWaits(room, low, through); }
    hide Between, Waiting, Reusable, Oldest;
  }

  lemma WaitingHas(room: seq<RoomMessage>, low: int, q: Query, m: RoomMessage)
    ensures m in Waiting(room, low, q) <==> m in room && low < m.sequence && BeforeDelta(q, m.sequence)
  {
    if m in room && IsWaiting(q, low)(m) { FilterHolds(room, IsWaiting(q, low), m); }
  }

  lemma ReloadsRow(room: seq<RoomMessage>, stored: Option<Stored>, q: Query, digest: string -> string,
                   chain: (Option<Stored>, seq<RoomMessage>) -> string)
    requires Loaded(room, stored, q, digest) != []
    requires Loaded(room, stored, q, digest)[|Loaded(room, stored, q, digest)| - 1].sequence < q.currentSequence
    ensures Reload(room, stored, q, digest, chain)
         == Some(Row(Previous(stored, q, digest), Loaded(room, stored, q, digest), q, digest, chain))
  {
  }

  lemma BeforeCurrent(q: Query, sequence: int)
    requires BeforeDelta(q, sequence)
    ensures sequence < q.currentSequence
  {
  }

  lemma LastFolded(room: seq<RoomMessage>, stored: Option<Stored>, q: Query, digest: string -> string, last: RoomMessage)
    requires Loaded(room, stored, q, digest) != []
    requires last == Loaded(room, stored, q, digest)[|Loaded(room, stored, q, digest)| - 1]
    ensures last in room && BeforeDelta(q, last.sequence) && last.sequence < q.currentSequence
  {
    var reused := stored.Some? && Reusable(stored.value, q, digest);
    var low := if reused then stored.value.throughSequence else -1;
    hide *;
    LoadedIs(room, stored, q, digest);
    LastLoaded(Waiting(room, low, q), Loaded(room, stored, q, digest), q.limit, reused);
    WaitingHas(room, low, q, last);
    BeforeCurrent(q, last.sequence);
  }

  /** What is folded ends before the delta, and the row written ends with it. */
  lemma FoldedAreWaiting(room: seq<RoomMessage>, stored: Option<Stored>, q: Query, digest: string -> string,
                         chain: (Option<Stored>, seq<RoomMessage>) -> string)
    requires Loaded(room, stored, q, digest) != []
    ensures
      var messages := Loaded(room, stored, q, digest);
      var r := Reload(room, stored, q, digest, chain);
      && r == Some(Row(Previous(stored, q, digest), messages, q, digest, chain))
      && r.value.throughSequence == messages[|messages| - 1].sequence < q.currentSequence
      && messages[|messages| - 1] in room && BeforeDelta(q, messages[|messages| - 1].sequence)
  {
    var messages := Loaded(room, stored, q, digest);
    hide *;
    LastFolded(room, stored, q, digest, messages[|messages| - 1]);
    ReloadsRow(room, stored, q, digest, chain);
    RowRange(Previous(stored, q, digest), messages, q, digest, chain);
  }

  lemma LastLoaded(w: seq<RoomMessage>, messages: seq<RoomMessage>, limit: nat, reused: bool)
    requires messages == (if |w| <= limit then w else if reused then w[..limit] else w[|w| - limit..]) && messages != []
    ensures messages[|messages| - 1] in w
    ensures |messages| < limit || !reused ==> messages[|messages| - 1] == w[|w| - 1]
  {
  }

  lemma LastIsLatest(room: seq<RoomMessage>, low: int, q: Query, m: RoomMessage)
    requires Rising(room) && m in Waiting(room, low, q)
    ensures m.sequence <= Waiting(room, low, q)[|Waiting(room, low, q)| - 1].sequence
  {
    WaitingIs(room, low, q);
    BetweenRises(room, low, Oldest(q.delta, q.currentSequence) - 1);
    var w := Waiting(room, low, q);
    var i :| 0 <= i < |w| && w[i] == m;
    hide Waiting, Between;
    assert i < |w| - 1 ==> w[i].sequence < w[|w| - 1].sequence;
  }

  lemma NoneBetween(room: seq<RoomMessage>, stored: Option<Stored>, q: Query, digest: string -> string, m: RoomMessage)
    requires Rising(room) && Loaded(room, stored, q, digest) != [] && m in room
    requires |Loaded(room, stored, q, digest)| < q.limit || stored.None? || !Reusable(stored.value, q, digest)
    requires Loaded(room, stored, q, digest)[|Loaded(room, stored, q, digest)| - 1].sequence < m.sequence
    ensures !BeforeDelta(q, m.sequence)
  {
    var messages := Loaded(room, stored, q, digest);
    var reused := stored.Some? && Reusable(stored.value, q, digest);
    var low := if reused then stored.value.throughSequence else -1;
    hide *;
    LoadedIs(room, stored, q, digest);
    var w := Waiting(room, low, q);
    LastLoaded(w, messages, q.limit, reused);
    assert messages[|messages| - 1] == w[|w| - 1];
    WaitingHas(room, low, q, w[|w| - 1]);
    WaitingHas(room, low, q, m);
    if BeforeDelta(q, m.sequence) {
      assert m in w;
      LastIsLatest(room, low, q, m);
    }
  }

  /**
   * Where a load that folds anything stops: the row it leaves ends before the current
   * message and before every message of the delta; and unless it filled its limit on
   * top of a row it reused, no message of the room is left between the two.
   */
  lemma LoadStopsBeforeDelta(room: seq<RoomMessage>, stored: Option<Stored>, q: Query, digest: string -> string,
                             chain: (Option<Stored>, seq<RoomMessage>) -> string)
    requires Rising(room) && Loaded(room, stored, q, digest) != []
    ensures Reload(room, stored, q, digest, chain).Some?
    ensures
      var through := Reload(room, stored, q, digest, chain).value.throughSequence;
      && BeforeDelta(q, through)
      && (|Loaded(room, stored, q, digest)| < q.limit || stored.None? || !Reusable(stored.value, q, digest) ==>
            forall m | m in room && through < m.sequence :: !BeforeDelta(q, m.sequence))
  {
    hide *;
    FoldedAreWaiting(room, stored, q, digest, chain);
    var messages := Loaded(room, stored, q, digest);
    if |messages| < q.limit || stored.None? || !Reusable(stored.value, q, digest) {
      forall m | m in room && messages[|messages| - 1].sequence < m.sequence ensures !BeforeDelta(q, m.sequence) {
        NoneBetween(room, stored, q, digest, m);
      }
    }
  }

  // ----- which row a load may build on

  /** What the summary told must be of: this query's room, session, version and readers, ending before its message. */
  predicate IsFor(r: Stored, q: Query, digest: string -> string) {
    && r.organizationId == q.organizationId && r.roomId == q.roomId && r.roomSessionId == q.roomSessionId
    && r.configVersion == q.configVersion && r.aclHash == q.aclHash
    && r.contentHash == digest(r.content) && r.throughSequence < q.currentSequence
  }

  lemma ToldIsForQuery(room: seq<RoomMessage>, stored: Option<Stored>, q: Query, digest: string -> string,
                       chain: (Option<Stored>, seq<RoomMessage>) -> string)
    ensures
      var told := Told(room, stored, q, digest, chain);
      told.Some? ==> IsFor(told.value, q, digest)
  {
    if Loaded(room, stored, q, digest) != [] { FoldedAreWaiting(room, stored, q, digest, chain); }
    hide Loaded, Digest, Reload, BeforeDelta;
  }

  /**
   * A row of another room, session, version or set of readers, one whose text does
   * not match its hash, or one that reaches the current message leaves no trace: the
   * load tells, and writes, what it would without any row.
   */
  lemma ForeignRowIsIgnored(room: seq<RoomMessage>, stored: Stored, q: Query, digest: string -> string,
                            chain: (Option<Stored>, seq<RoomMessage>) -> string)
    requires !IsFor(stored, q, digest)
    ensures Told(room, Some(stored), q, digest, chain) == Told(room, None, q, digest, chain)
    ensures Reload(room, Some(stored), q, digest, chain) ==
      if Reload(room, None, q, digest, chain).None? then Some(stored) else Reload(room, None, q, digest, chain)
  {
    assert Previous(Some(stored), q, digest) == Previous(None, q, digest) == None;
    assert Loaded(room, Some(stored), q, digest) == Loaded(room, None, q, digest);
    if Loaded(room, None, q, digest) != [] {
      FoldedAreWaiting(room, None, q, digest, chain);
      FoldedAreWaiting(room, Some(stored), q, digest, chain);
    }
    hide Loaded, Reusable, Digest, Previous, Row, BeforeDelta;
  }

  /**
   * A load that folds messages leaves a row that chains its hash over the row it
   * built on and just those messages; a row it could not use is not in the chain.
   */
  lemma SourceHashChains(room: seq<RoomMessage>, stored: Option<Stored>, q: Query, digest: string -> string,
                         chain: (Option<Stored>, seq<RoomMessage>) -> string)
    requires Loaded(room, stored, q, digest) != []
    ensures Reload(room, stored, q, digest, chain).Some?
    ensures
      var messages := Loaded(room, stored, q, digest);
      var reused := stored.Some? && Reusable(stored.value, q, digest);
      Reload(room, stored, q, digest, chain).value.sourceHash == chain(if reused then stored else None, messages)
  {
    FoldedAreWaiting(room, stored, q, digest, chain);
    assert 0 < Oldest(q.delta, q.currentSequence) by { hide Between, Reusable, Oldest; }
    hide Loaded, Reusable, Digest, BeforeDelta, Oldest;
  }

  // ----- coverage

  /** The row's text is that of folding, from nothing, all the messages in the range it names. */
  ghost predicate Covers(room: seq<RoomMessage>, s: Stored, max: nat) {
    && 0 <= s.fromSequence <= s.throughSequence
    && (exists m :: m in room && m.sequence == s.throughSequence)
    && s.content == Digest("", TextOf(Between(room, s.fromSequence - 1, s.throughSequence)), max)
  }

  ghost predicate ProperRoom(room: seq<RoomMessage>, max: nat) {
    Rising(room) && |HEADER| + 1 <= max && forall m | m in room :: ProperLine(m.line, max)
  }

  lemma {:induction false} BetweenSplits(room: seq<RoomMessage>, low: int, mid: int, high: int)
    requires Rising(room) && low <= mid <= high
    ensures Between(room, low, high) == Between(room, low, mid) + Between(room, mid, high)
  {
    if room != [] {
      var front, last := room[..|room| - 1], room[|room| - 1];
      BetweenSplits(front, low, mid, high);
      if low < last.sequence <= mid { NoneBeyond(front, mid, high, last.sequence); }
    }
  }

  lemma {:induction false} NoneBeyond(room: seq<RoomMessage>, mid: int, high: int, limit: int)
    requires (forall m | m in room :: m.sequence < limit) && limit <= mid
    ensures Between(room, mid, high) == []
  {
    if room != [] {
      assert room[|room| - 1] in room;
      NoneBeyond(room[..|room| - 1], mid, high, limit);
    }
  }

  lemma {:induction false} BetweenRises(room: seq<RoomMessage>, low: int, high: int)
    requires Rising(room)
    ensures Rising(Between(room, low, high))
  {
    if room != [] {
      var front, last := room[..|room| - 1], room[|room| - 1];
      BetweenRises(front, low, high);
      var w := Between(front, low, high);
      forall i | 0 <= i < |w| ensures w[i].sequence < last.sequence {
        assert w[i] in w;
        var k :| 0 <= k < |front| && front[k] == w[i];
        assert room[k].sequence < room[|room| - 1].sequence;
      }
    }
  }

  /** In a rising list cut at a sequence, the cut is where that sequence is passed. */
  lemma CountUpTo(a: seq<RoomMessage>, b: seq<RoomMessage>, at: int, n: nat)
    requires n <= |a + b|
    requires (forall m | m in a :: m.sequence <= at) && (forall m | m in b :: at < m.sequence)
    requires (n > 0 ==> (a + b)[n - 1].sequence <= at) && (n < |a + b| ==> at < (a + b)[n].sequence)
    ensures |a| == n
  {
    if 0 < n { PartOf(a, b, n - 1); }
    if n < |a + b| { PartOf(a, b, n); }
  }

  lemma PartOf(a: seq<RoomMessage>, b: seq<RoomMessage>, k: nat)
    requires k < |a + b|
    ensures (a + b)[k] in if k < |a| then a else b
  {
  }

  lemma SplitAtLength(a: seq<RoomMessage>, b: seq<RoomMessage>)
    ensures (a + b)[..|a|] == a && (a + b)[|a|..] == b
  {
  }

  lemma {:induction false} WindowsAgree(room: seq<RoomMessage>, low: int, high: int)
    ensures forall m | m in Between(room, low, high) :: m in room && low < m.sequence <= high
  {
  }

  /** A beginning of a range is the whole of a shorter range. */
  lemma RangeBeginning(room: seq<RoomMessage>, low: int, high: int, j: nat, w: seq<RoomMessage>)
    requires Rising(room) && w == Between(room, low, high) && 0 < j <= |w|
    ensures low < w[j - 1].sequence <= high && w[..j] == Between(room, low, w[j - 1].sequence)
  {
    BetweenRises(room, low, high);
    WindowsAgree(room, low, high);
    assert w[j - 1] in w;
    var at := w[j - 1].sequence;
    assert j < |w| ==> at < w[j].sequence;
    BetweenSplits(room, low, at, high);
    WindowsAgree(room, low, at);
    WindowsAgree(room, at, high);
    hide *;
    CountUpTo(Between(room, low, at), Between(room, at, high), at, j);
    SplitAtLength(Between(room, low, at), Between(room, at, high));
  }

  lemma CountBelow(room: seq<RoomMessage>, low: int, high: int, i: nat, w: seq<RoomMessage>)
    requires Rising(room) && w == Between(room, low, high) && i < |w|
    ensures low < w[i].sequence <= high && |Between(room, low, w[i].sequence - 1)| == i
  {
    BetweenRises(room, low, high);
    WindowsAgree(room, low, high);
    assert w[i] in w;
    assert 0 < i ==> w[i - 1].sequence < w[i].sequence;
    var mid := w[i].sequence - 1;
    BetweenSplits(room, low, mid, high);
    WindowsAgree(room, low, mid);
    WindowsAgree(room, mid, high);
    hide *;
    CountUpTo(Between(room, low, mid), Between(room, mid, high), mid, i);
  }

  /** And so is an end of one. */
  lemma RangeEnd(room: seq<RoomMessage>, low: int, high: int, i: nat, w: seq<RoomMessage>)
    requires Rising(room) && w == Between(room, low, high) && i < |w|
    ensures low < w[i].sequence <= w[|w| - 1].sequence <= high
    ensures w[i..] == Between(room, w[i].sequence - 1, w[|w| - 1].sequence)
  {
    hide *;
    CountBelow(room, low, high, i, w);
    var mid := w[i].sequence - 1;
    BetweenSplits(room, low, mid, high);
    var below, rest := Between(room, low, mid), Between(room, mid, high);
    SplitAtLength(below, rest);
    assert w[i..] == rest && rest[|rest| - 1] == w[|w| - 1];
    RangeBeginning(room, mid, high, |rest|, rest);
    assert rest[..|rest|] == rest;
  }

  lemma TextConcat(a: seq<RoomMessage>, b: seq<RoomMessage>)
    ensures TextOf(a + b) == TextOf(a) + TextOf(b)
  {
  }

  lemma EmptyDigest()
    ensures Lines("") == []
  {
    assert Split("") == [""] && [""][..0] == [];
    assert Filter([""], KeptLine()) == [];
  }

  /** The first and the last message of a load, and the row it leaves. */
  lemma LoadEnds(room: seq<RoomMessage>, stored: Option<Stored>, q: Query, digest: string -> string,
                 chain: (Option<Stored>, seq<RoomMessage>) -> string, messages: seq<RoomMessage>, low: int, through: int,
                 window: seq<RoomMessage>)
    requires messages == Loaded(room, stored, q, digest) != []
    requires low == if Previous(stored, q, digest).Some? then Previous(stored, q, digest).value.throughSequence else -1
    requires through == Oldest(q.delta, q.currentSequence) - 1 && window == Between(room, low, through)
    ensures |messages| <= |window|
    ensures Previous(stored, q, digest).Some? ==> messages == window[..|messages|]
    ensures Previous(stored, q, digest).None? ==> messages == window[|window| - |messages|..]
    ensures messages[|messages| - 1] in room && messages[|messages| - 1].sequence <= through < q.currentSequence
    ensures Reload(room, stored, q, digest, chain) == Some(Row(Previous(stored, q, digest), messages, q, digest, chain))
  {
    LoadedShape(room, stored, q, digest);
    hide *;
    LastOf(messages, window);
    LastInRange(room, low, through, messages[|messages| - 1], window);
    ReloadsRow(room, stored, q, digest, chain);
  }

  /**
   * A load on a reusable row folds exactly the messages between the coverage it
   * found and the coverage it leaves: none skipped, none folded twice.
   */
  lemma ReloadExtends(room: seq<RoomMessage>, stored: Option<Stored>, q: Query, digest: string -> string,
                      chain: (Option<Stored>, seq<RoomMessage>) -> string, p: Stored, r: Stored)
    requires Rising(room) && Loaded(room, stored, q, digest) != []
    requires Previous(stored, q, digest) == Some(p) && Reload(room, stored, q, digest, chain) == Some(r)
    ensures r.fromSequence == p.fromSequence && p.throughSequence < r.throughSequence < q.currentSequence
    ensures Loaded(room, stored, q, digest) == Between(room, p.throughSequence, r.throughSequence)
    ensures exists m :: m in room && m.sequence == r.throughSequence
  {
    hide *;
    var messages := Loaded(room, stored, q, digest);
    var through := Oldest(q.delta, q.currentSequence) - 1;
    var window := Between(room, p.throughSequence, through);
    LoadEnds(room, stored, q, digest, chain, messages, p.throughSequence, through, window);
    RowRange(Some(p), messages, q, digest, chain);
    RangeBeginning(room, p.throughSequence, through, |messages|, window);
    assert window[|messages| - 1] == messages[|messages| - 1];
  }

  /** Without a reusable row a load starts anew, and again covers a whole range. */
  lemma ReloadStartsAnew(room: seq<RoomMessage>, stored: Option<Stored>, q: Query, digest: string -> string,
                         chain: (Option<Stored>, seq<RoomMessage>) -> string, r: Stored)
    requires Rising(room) && Loaded(room, stored, q, digest) != []
    requires Previous(stored, q, digest).None? && Reload(room, stored, q, digest, chain) == Some(r)
    ensures 0 <= r.fromSequence <= r.throughSequence < q.currentSequence
    ensures Loaded(room, stored, q, digest) == Between(room, r.fromSequence - 1, r.throughSequence)
    ensures exists m :: m in room && m.sequence == r.throughSequence
  {
    hide *;
    var messages := Loaded(room, stored, q, digest);
    var through := Oldest(q.delta, q.currentSequence) - 1;
    var window := Between(room, -1, through);
    LoadEnds(room, stored, q, digest, chain, messages, -1, through, window);
    RowRange(None, messages, q, digest, chain);
    RangeEnd(room, -1, through, |window| - |messages|, window);
    assert window[|window| - 1] == messages[|messages| - 1] && window[|window| - |messages|] == messages[0];
  }

  lemma HeaderShows(lines: seq<string>, max: nat)
    requires |HEADER| < max
    ensures NonEmpty(Cut(Body(lines), max))
  {
    assert Cut(Body(lines), max)[0] == HEADER[0] == 'D' && !IsSpace('D');
  }

  lemma RowSpan(room: seq<RoomMessage>, stored: Option<Stored>, q: Query, digest: string -> string,
                chain: (Option<Stored>, seq<RoomMessage>) -> string)
    requires Rising(room) && Loaded(room, stored, q, digest) != [] && Reload(room, stored, q, digest, chain).Some?
    ensures 0 <= Reload(room, stored, q, digest, chain).value.fromSequence
              <= Reload(room, stored, q, digest, chain).value.throughSequence
  {
    var r := Reload(room, stored, q, digest, chain).value;
    var previous := Previous(stored, q, digest);
    assert previous.Some? ==> 0 <= previous.value.fromSequence <= previous.value.throughSequence;
    hide *;
    if previous.Some? {
      ReloadExtends(room, stored, q, digest, chain, previous.value, r);
    } else {
      ReloadStartsAnew(room, stored, q, digest, chain, r);
    }
  }

  /** The hashes a load writes are SHA-256 digests, and its sequences are safe integers. */
  ghost predicate WellHashed(q: Query, digest: string -> string, chain: (Option<Stored>, seq<RoomMessage>) -> string, through: int) {
    && IsDigest(q.aclHash) && (forall text :: IsDigest(digest(text)))
    && (forall previous, messages :: IsDigest(chain(previous, messages))) && SafeInteger(through)
  }

  lemma WrittenIsReusable(room: seq<RoomMessage>, q: Query, digest: string -> string,
                          chain: (Option<Stored>, seq<RoomMessage>) -> string, previous: Option<Stored>,
                          messages: seq<RoomMessage>, r: Stored)
    requires messages != [] && |HEADER| < q.max && r == Row(previous, messages, q, digest, chain)
    requires WellHashed(q, digest, chain, r.throughSequence) && 0 <= r.fromSequence <= r.throughSequence < q.currentSequence
    ensures Reusable(r, q, digest)
  {
    hide IsDigest, IsSpace, NonEmpty, Body, Trim, Lines, TextOf;
    HeaderShows(Trim(Lines(if previous.Some? then previous.value.content else "") + TextOf(messages), q.max), q.max);
  }

  /**
   * The row a load has written is used by the next: asked the same again, after a load
   * that left nothing waiting, it folds nothing, writes nothing and tells that row.
   */
  lemma SecondLoadReuses(room: seq<RoomMessage>, stored: Option<Stored>, q: Query, digest: string -> string,
                         chain: (Option<Stored>, seq<RoomMessage>) -> string)
    requires Rising(room) && |HEADER| < q.max && Loaded(room, stored, q, digest) != []
    requires |Loaded(room, stored, q, digest)| < q.limit || stored.None? || !Reusable(stored.value, q, digest)
    requires
      var r := Reload(room, stored, q, digest, chain);
      r.Some? ==> WellHashed(q, digest, chain, r.value.throughSequence)
    ensures
      var r := Reload(room, stored, q, digest, chain);
      && r.Some? && Loaded(room, r, q, digest) == []
      && Reload(room, r, q, digest, chain) == r && Told(room, r, q, digest, chain) == r
  {
    var r := Reload(room, stored, q, digest, chain);
    hide Loaded, Reload, Row, Rising, WellHashed;
    FoldedAreWaiting(room, stored, q, digest, chain);
    LoadStopsBeforeDelta(room, stored, q, digest, chain);
    RowSpan(room, stored, q, digest, chain);
    WrittenIsReusable(room, q, digest, chain, Previous(stored, q, digest), Loaded(room, stored, q, digest), r.value);
    LoadedIs(room, r, q, digest);
    NothingWaits(room, r.value.throughSequence, q);
    StoppedBefore(q, r.value.throughSequence);
    NothingLoaded(room, r, q, digest, chain);
  }

  lemma NothingWaits(room: seq<RoomMessage>, low: int, q: Query)
    requires forall m | m in room && low < m.sequence :: !BeforeDelta(q, m.sequence)
    ensures Waiting(room, low, q) == []
  {
    FilterNone(room, IsWaiting(q, low));
  }

  lemma StoppedBefore(q: Query, through: int)
    requires BeforeDelta(q, through)
    ensures through < Oldest(q.delta, q.currentSequence)
  {
  }

  lemma NothingLoaded(room: seq<RoomMessage>, r: Option<Stored>, q: Query, digest: string -> string,
                      chain: (Option<Stored>, seq<RoomMessage>) -> string)
    requires Loaded(room, r, q, digest) == [] && r.Some? && Reusable(r.value, q, digest) && 0 < Oldest(q.delta, q.currentSequence)
    ensures Reload(room, r, q, digest, chain) == r && Told(room, r, q, digest, chain) == r
  {
  }

  lemma LastInRange(room: seq<RoomMessage>, low: int, high: int, m: RoomMessage, w: seq<RoomMessage>)
    requires w == Between(room, low, high) && m in w
    ensures m in room && low < m.sequence <= high
  {
    WindowsAgree(room, low, high);
  }

  lemma RowRange(previous: Option<Stored>, messages: seq<RoomMessage>, q: Query, digest: string -> string,
                 chain: (Option<Stored>, seq<RoomMessage>) -> string)
    requires messages != []
    ensures
      var r := Row(previous, messages, q, digest, chain);
      && r.throughSequence == messages[|messages| - 1].sequence
      && r.fromSequence == if previous.Some? then previous.value.fromSequence else messages[0].sequence
  {
  }

  lemma LastOf(messages: seq<RoomMessage>, window: seq<RoomMessage>)
    requires messages != [] && |messages| <= |window|
    requires messages == window[..|messages|] || messages == window[|window| - |messages|..]
    ensures messages[|messages| - 1] in window
    ensures messages == window[..|messages|] ==> messages[|messages| - 1] == window[|messages| - 1]
    ensures messages == window[|window| - |messages|..] ==>
      messages[0] == window[|window| - |messages|] && messages[|messages| - 1] == window[|window| - 1]
  {
  }

  /** A load takes the beginning of the window after a reusable row, or the end of the whole window. */
  lemma LoadedShape(room: seq<RoomMessage>, stored: Option<Stored>, q: Query, digest: string -> string)
    requires Loaded(room, stored, q, digest) != []
    ensures
      var messages := Loaded(room, stored, q, digest);
      var previous := Previous(stored, q, digest);
      var window := Between(room, if previous.Some? then previous.value.throughSequence else -1,
                            Oldest(q.delta, q.currentSequence) - 1);
      && |messages| <= |window|
      && messages == if previous.Some? then window[..|messages|] else window[|window| - |messages|..]
  {
    hide Between, Reusable, Oldest;
  }

  lemma CoveredLines(room: seq<RoomMessage>, low: int, high: int, max: nat)
    requires ProperRoom(room, max)
    ensures Proper(Lines("") + TextOf(Between(room, low, high)), max)
  {
    EmptyDigest();
    WindowsAgree(room, low, high);
    var w := Between(room, low, high);
    forall line | line in Lines("") + TextOf(w) ensures ProperLine(line, max) {
      var i :| 0 <= i < |w| && TextOf(w)[i] == line;
      assert w[i] in w;
    }
  }

  /** A row that covers its range still does after a load: the stored text is always the batch text. */
  lemma ReloadKeepsCover(room: seq<RoomMessage>, stored: Option<Stored>, q: Query, digest: string -> string,
                         chain: (Option<Stored>, seq<RoomMessage>) -> string)
    requires ProperRoom(room, q.max) && (stored.Some? ==> Covers(room, stored.value, q.max))
    ensures
      var r := Reload(room, stored, q, digest, chain);
      r.Some? ==> Covers(room, r.value, q.max) && |r.value.content| <= q.max
  {
    var messages := Loaded(room, stored, q, digest);
    if messages != [] {
      RowCovers(room, stored, q, digest, chain);
      CoverFits(room, Reload(room, stored, q, digest, chain).value, q.max);
    } else if stored.Some? {
      CoverFits(room, stored.value, q.max);
    }
    hide Loaded, Covers, Digest;
  }

  lemma CoverFits(room: seq<RoomMessage>, s: Stored, max: nat)
    requires ProperRoom(room, max) && Covers(room, s, max)
    ensures |s.content| <= max
  {
    CoveredLines(room, s.fromSequence - 1, s.throughSequence, max);
    DigestReadsBack("", TextOf(Between(room, s.fromSequence - 1, s.throughSequence)), max);
  }

  lemma RowCovers(room: seq<RoomMessage>, stored: Option<Stored>, q: Query, digest: string -> string,
                  chain: (Option<Stored>, seq<RoomMessage>) -> string)
    requires ProperRoom(room, q.max) && (stored.Some? ==> Covers(room, stored.value, q.max))
    requires Loaded(room, stored, q, digest) != []
    ensures
      var r := Reload(room, stored, q, digest, chain);
      r.Some? && Covers(room, r.value, q.max)
  {
    var messages := Loaded(room, stored, q, digest);
    var previous := Previous(stored, q, digest);
    assert Rising(room) && (previous.Some? ==> previous == stored);
    var through := Oldest(q.delta, q.currentSequence) - 1;
    var low := if previous.Some? then previous.value.throughSequence else -1;
    hide *;
    LoadEnds(room, stored, q, digest, chain, messages, low, through, Between(room, low, through));
    var r := Row(previous, messages, q, digest, chain);
    if previous.Some? {
      ReloadExtends(room, stored, q, digest, chain, previous.value, r);
      ReusedCovers(room, previous.value, messages, q, digest, chain, r);
    } else {
      ReloadStartsAnew(room, stored, q, digest, chain, r);
      NewCovers(room, messages, q, digest, chain, r);
    }
  }

  lemma NewCovers(room: seq<RoomMessage>, messages: seq<RoomMessage>, q: Query, digest: string -> string,
                  chain: (Option<Stored>, seq<RoomMessage>) -> string, r: Stored)
    requires messages != [] && r == Row(None, messages, q, digest, chain) && 0 <= r.fromSequence <= r.throughSequence
    requires messages == Between(room, r.fromSequence - 1, r.throughSequence)
    requires exists m :: m in room && m.sequence == r.throughSequence
    ensures Covers(room, r, q.max)
  {
    hide Between, Digest, TextOf;
  }

  lemma ReusedCovers(room: seq<RoomMessage>, p: Stored, messages: seq<RoomMessage>, q: Query, digest: string -> string,
                     chain: (Option<Stored>, seq<RoomMessage>) -> string, r: Stored)
    requires ProperRoom(room, q.max) && Covers(room, p, q.max)
    requires messages != [] && r == Row(Some(p), messages, q, digest, chain)
    requires r.fromSequence == p.fromSequence && p.throughSequence < r.throughSequence
    requires messages == Between(room, p.throughSequence, r.throughSequence)
    requires exists m :: m in room && m.sequence == r.throughSequence
    ensures Covers(room, r, q.max)
  {
    hide *;
    RowText(p, messages, q, digest, chain);
    CoverIsRange(room, p, q.max);
    FoldedOnto(room, p, messages, r.throughSequence, q.max);
    CoversBy(room, r, q.max);
  }

  lemma CoverIsRange(room: seq<RoomMessage>, s: Stored, max: nat)
    requires Covers(room, s, max)
    ensures 0 <= s.fromSequence <= s.throughSequence
    ensures s.content == Digest("", TextOf(Between(room, s.fromSequence - 1, s.throughSequence)), max)
  {
  }

  lemma RowText(p: Stored, messages: seq<RoomMessage>, q: Query, digest: string -> string,
                chain: (Option<Stored>, seq<RoomMessage>) -> string)
    requires messages != []
    ensures Row(Some(p), messages, q, digest, chain).content == Digest(p.content, TextOf(messages), q.max)
  {
    hide Digest, TextOf;
  }

  lemma CoversBy(room: seq<RoomMessage>, r: Stored, max: nat)
    requires 0 <= r.fromSequence <= r.throughSequence
    requires r.content == Digest("", TextOf(Between(room, r.fromSequence - 1, r.throughSequence)), max)
    requires exists m :: m in room && m.sequence == r.throughSequence
    ensures Covers(room, r, max)
  {
    hide Between, Digest, TextOf;
  }

  lemma RoomRises(room: seq<RoomMessage>, max: nat)
    requires ProperRoom(room, max)
    ensures Rising(room) && |HEADER| + 1 <= max
  {
  }

  /** Folding the messages that follow a covering row gives the batch text of the longer range. */
  lemma FoldedOnto(room: seq<RoomMessage>, p: Stored, messages: seq<RoomMessage>, through: int, max: nat)
    requires ProperRoom(room, max) && Covers(room, p, max) && p.throughSequence <= through
    requires messages == Between(room, p.throughSequence, through)
    ensures Digest(p.content, TextOf(messages), max) == Digest("", TextOf(Between(room, p.fromSequence - 1, through)), max)
  {
    hide *;
    var covered := Between(room, p.fromSequence - 1, p.throughSequence);
    CoverIsRange(room, p, max);
    RoomRises(room, max);
    BetweenSplits(room, p.fromSequence - 1, p.throughSequence, through);
    CoveredLines(room, p.fromSequence - 1, through, max);
    TextConcat(covered, messages);
    assert Lines("") + (TextOf(covered) + TextOf(messages)) == Lines("") + TextOf(covered) + TextOf(messages);
    IncrementalIsBatch("", TextOf(covered), TextOf(messages), max);
  }

  // ----- any sequence of loads in a growing room

  datatype Event = Said(message: RoomMessage) | Load(query: Query)

  /** The cache has one row for each session and configuration version. */
  type Rows = map<(string, string), Stored>

  function KeyOf(q: Query): (string, string) {
    (q.roomSessionId, q.configVersion)
  }

  function Cached(rows: Rows, q: Query): Option<Stored> {
    if KeyOf(q) in rows then Some(rows[KeyOf(q)]) else None
  }

  function LoadInto(room: seq<RoomMessage>, rows: Rows, q: Query, digest: string -> string,
                    chain: (Option<Stored>, seq<RoomMessage>) -> string): Rows
  {
    match Reload(room, Cached(rows, q), q, digest, chain)
    case None => rows
    case Some(row) => rows[KeyOf(q) := row]
  }

  function Later(room: seq<RoomMessage>, rows: Rows, events: seq<Event>, digest: string -> string,
                 chain: (Option<Stored>, seq<RoomMessage>) -> string): (seq<RoomMessage>, Rows)
    decreases |events|
  {
    if events == [] then (room, rows)
    else
      match events[0]
      case Said(m) => Later(room + [m], rows, events[1..], digest, chain)
      case Load(q) => Later(room, LoadInto(room, rows, q, digest, chain), events[1..], digest, chain)
  }

  /** Every row stands under its own session and version, and is the digest of its range. */
  ghost predicate Exact(room: seq<RoomMessage>, rows: Rows, max: nat) {
    forall key | key in rows ::
      key == (rows[key].roomSessionId, rows[key].configVersion) && Covers(room, rows[key], max) && |rows[key].content| <= max
  }

  /** New messages come with larger sequences, every line is proper, and every load has the same text limit. */
  ghost predicate Orderly(room: seq<RoomMessage>, events: seq<Event>, max: nat)
    decreases |events|
  {
    events != [] ==>
      match events[0]
      case Said(m) =>
        (room != [] ==> room[|room| - 1].sequence < m.sequence) && ProperLine(m.line, max) && Orderly(room + [m], events[1..], max)
      case Load(q) => q.max == max && Orderly(room, events[1..], max)
  }

  lemma SayingKeepsCover(room: seq<RoomMessage>, m: RoomMessage, s: Stored, max: nat)
    requires ProperRoom(room, max) && Covers(room, s, max) && (room != [] ==> room[|room| - 1].sequence < m.sequence)
    ensures Covers(room + [m], s, max)
  {
    assert (room + [m])[..|room|] == room;
    var last :| last in room && last.sequence == s.throughSequence;
    var i :| 0 <= i < |room| && room[i] == last;
    assert last.sequence <= room[|room| - 1].sequence;
    assert last in room + [m];
    assert Between(room + [m], s.fromSequence - 1, s.throughSequence) == Between(room, s.fromSequence - 1, s.throughSequence);
  }

  lemma ReloadsOwnKey(room: seq<RoomMessage>, stored: Option<Stored>, q: Query, digest: string -> string,
                      chain: (Option<Stored>, seq<RoomMessage>) -> string)
    requires stored.Some? ==> (stored.value.roomSessionId, stored.value.configVersion) == KeyOf(q)
    ensures
      var r := Reload(room, stored, q, digest, chain);
      r.Some? ==> (r.value.roomSessionId, r.value.configVersion) == KeyOf(q)
  {
    hide Loaded, Reusable, Digest;
  }

  lemma LoadKeepsExact(room: seq<RoomMessage>, rows: Rows, q: Query, digest: string -> string,
                       chain: (Option<Stored>, seq<RoomMessage>) -> string)
    requires ProperRoom(room, q.max) && Exact(room, rows, q.max)
    ensures Exact(room, LoadInto(room, rows, q, digest, chain), q.max)
  {
    hide Covers, ProperRoom, Reload;
    ReloadKeepsCover(room, Cached(rows, q), q, digest, chain);
    ReloadsOwnKey(room, Cached(rows, q), q, digest, chain);
  }

  lemma SayingKeepsExact(room: seq<RoomMessage>, m: RoomMessage, rows: Rows, max: nat)
    requires ProperRoom(room, max) && Exact(room, rows, max) && (room != [] ==> room[|room| - 1].sequence < m.sequence)
    ensures Exact(room + [m], rows, max)
  {
    forall key | key in rows ensures Covers(room + [m], rows[key], max) { SayingKeepsCover(room, m, rows[key], max); }
    hide Covers, ProperRoom;
  }

  /**
   * Over any history of messages and loads, by any sessions under any configuration
   * versions and whatever rows were reused or rebuilt: the text stored in every row
   * is the batch digest of exactly the messages in the range the row names, within
   * the limit.
   */
  lemma {:induction false} DigestStaysExact(room: seq<RoomMessage>, rows: Rows, events: seq<Event>, max: nat,
                                            digest: string -> string, chain: (Option<Stored>, seq<RoomMessage>) -> string)
    requires ProperRoom(room, max) && Orderly(room, events, max) && Exact(room, rows, max)
    ensures
      var (room', rows') := Later(room, rows, events, digest, chain);
      Exact(room', rows', max)
    decreases |events|
  {
    hide Exact, Covers, LoadInto;
    if events != [] {
      match events[0]
      case Said(m) =>
        SayingKeepsExact(room, m, rows, max);
        DigestStaysExact(room + [m], rows, events[1..], max, digest, chain);
      case Load(q) =>
        LoadKeepsExact(room, rows, q, digest, chain);
        DigestStaysExact(room, LoadInto(room, rows, q, digest, chain), events[1..], max, digest, chain);
    }
  }
}
