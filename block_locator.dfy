/**
 * The block locator of the default-site editor (internal/nginx/default_site.go):
 * a line scanner that finds brace-delimited nginx blocks by counting the braces
 * written before each line's first `#`.
 *
 * The scan is specified by `Scan`, a function over the slice of lines being
 * searched whose block positions are relative to the slice; `FindBlocksInRange`
 * is the loop of the source, proved to return `FindBlocksSpec`, which places
 * `Scan`'s result at absolute line numbers.
 */
module BlockLocator {
  import opened Wrappers
  import opened Text

  /** A block: the line holding its opening pattern and the line where its braces balance. */
  datatype Block = Block(start: int, end: int)

  /** The error of an opened block whose braces never balance; `line` is 1-based. */
  datatype LocateError = Unclosed(line: int)

  /** The two start patterns the editor searches with. */
  datatype StartPattern =
    | ServerStart        // `^\s*server\s*\{`
    | LocationRootStart  // `^\s*location\s+/\s*\{`

  /** One element of the start patterns: `\s*`, `\s+`, or a literal character. */
  datatype Token = Spaces | Spaces1 | Lit(c: char)

  /** `^\s*server\s*\{` */
  const ServerPattern: seq<Token> :=
    [Spaces, Lit('s'), Lit('e'), Lit('r'), Lit('v'), Lit('e'), Lit('r'), Spaces, Lit('{')]

  /** `^\s*location\s+/\s*\{` */
  const LocationRootPattern: seq<Token> :=
    [Spaces, Lit('l'), Lit('o'), Lit('c'), Lit('a'), Lit('t'), Lit('i'), Lit('o'), Lit('n'),
     Spaces1, Lit('/'), Spaces, Lit('{')]

  /**
   * `s` starts with text matching `toks`. White-space runs are taken greedily, which
   * is exact here because no token after a run is itself a white-space literal.
   */
  predicate PrefixMatch(toks: seq<Token>, s: string)
    decreases |s|, |toks|
  {
    if toks == [] then true
    else match toks[0]
      case Lit(c) => s != [] && s[0] == c && PrefixMatch(toks[1..], s[1..])
      case Spaces =>
        if s != [] && IsRegexSpace(s[0]) then PrefixMatch(toks, s[1..]) else PrefixMatch(toks[1..], s)
      case Spaces1 => s != [] && IsRegexSpace(s[0]) && PrefixMatch([Spaces] + toks[1..], s[1..])
  }

  function Pattern(p: StartPattern): seq<Token> {
    match p
    case ServerStart => ServerPattern
    case LocationRootStart => LocationRootPattern
  }

  predicate Matches(p: StartPattern, line: string) {
    PrefixMatch(Pattern(p), line)
  }

  function CharDelta(c: char): int {
    if c == '{' then 1 else if c == '}' then -1 else 0
  }

  /** `braceDelta`: opening minus closing braces written before the line's first `#`. */
  function BraceDelta(line: string): int {
    if line == [] || line[0] == '#' then 0 else CharDelta(line[0]) + BraceDelta(line[1..])
  }

  /** What the scan looks at in a line: whether it opens a block, and its brace delta. */
  datatype LineInfo = LineInfo(opens: bool, delta: int)

  function Info(p: StartPattern, line: string): LineInfo {
    LineInfo(Matches(p, line), BraceDelta(line))
  }

  /** The scan's view of a run of lines. */
  function Profile(ls: seq<string>, p: StartPattern): (r: seq<LineInfo>)
    ensures |r| == |ls|
  {
    if ls == [] then [] else [Info(p, ls[0])] + Profile(ls[1..], p)
  }

  lemma {:induction false} ProfileAt(ls: seq<string>, p: StartPattern, i: int)
    requires 0 <= i < |ls|
    ensures Profile(ls, p)[i] == Info(p, ls[i])
  {
    if i > 0 {
      ProfileAt(ls[1..], p, i - 1);
    }
  }

  /** The net brace depth a run of lines adds. */
  function SumDelta(ps: seq<LineInfo>): int {
    if ps == [] then 0 else ps[0].delta + SumDelta(ps[1..])
  }

  lemma {:induction false} SumDeltaAppend(a: seq<LineInfo>, b: seq<LineInfo>)
    ensures SumDelta(a + b) == SumDelta(a) + SumDelta(b)
  {
    if a == [] {
      assert a + b == b;
    } else {
      assert (a + b)[1..] == a[1..] + b;
      SumDeltaAppend(a[1..], b);
    }
  }

  /** The depth the first `j` lines add. */
  function Prefix(ps: seq<LineInfo>, j: int): int
    requires 0 <= j <= |ps|
  {
    SumDelta(ps[..j])
  }

  /** The depth lines `s..j-1` add. */
  function Span(ps: seq<LineInfo>, s: int, j: int): int
    requires 0 <= s <= j <= |ps|
  {
    SumDelta(ps[s..j])
  }

  lemma PrefixCons(ps: seq<LineInfo>, j: int)
    requires 1 <= j <= |ps|
    ensures Prefix(ps, j) == ps[0].delta + Prefix(ps[1..], j - 1)
  {
    assert ps[..j][1..] == ps[1..][..j - 1];
  }

  lemma SpanAsPrefix(ps: seq<LineInfo>, s: int, j: int)
    requires 0 <= s < j <= |ps|
    ensures Span(ps, s, j) == ps[s].delta + Prefix(ps[s + 1..], j - s - 1)
  {
    assert ps[s..j][1..] == ps[s + 1..][..j - s - 1];
  }

  lemma SpanShift(ps: seq<LineInfo>, o: int, s: int, j: int)
    requires 0 <= o <= s <= j <= |ps|
    ensures Span(ps, s, j) == Span(ps[o..], s - o, j - o)
  {
    assert ps[s..j] == ps[o..][s - o..j - o];
  }

  /**
   * The index of the first line after which the running depth, starting at
   * `depth`, is back to zero.
   */
  function CloseIn(ps: seq<LineInfo>, depth: int): (r: Option<nat>)
    ensures r.Some? ==> r.value < |ps|
  {
    if ps == [] then None
    else
      var d := depth + ps[0].delta;
      if d == 0 then Some(0)
      else match CloseIn(ps[1..], d)
        case None => None
        case Some(k) => Some(k + 1)
  }

  /** `CloseIn` finds the first zero of the running depth, and `None` means there is none. */
  lemma {:induction false} CloseInFirstZero(ps: seq<LineInfo>, depth: int)
    ensures CloseIn(ps, depth).Some? ==>
              var k := CloseIn(ps, depth).value;
              depth + Prefix(ps, k + 1) == 0 && forall j :: 1 <= j <= k ==> depth + Prefix(ps, j) != 0
    ensures CloseIn(ps, depth).None? ==> forall j :: 1 <= j <= |ps| ==> depth + Prefix(ps, j) != 0
  {
    if ps != [] {
      var d := depth + ps[0].delta;
      PrefixCons(ps, 1);
      assert Prefix(ps[1..], 0) == 0;
      if d != 0 {
        CloseInFirstZero(ps[1..], d);
        forall j | 1 <= j <= |ps| ensures Prefix(ps, j) == ps[0].delta + Prefix(ps[1..], j - 1) {
          PrefixCons(ps, j);
        }
      }
    }
  }

  /** Lines `s..e` form a block as the scan finds it: `e` is where the depth opened at `s` first closes. */
  predicate ClosesAt(ps: seq<LineInfo>, s: int, e: int) {
    0 <= s < e < |ps| && CloseIn(ps[s + 1..], ps[s].delta) == Some(e - s - 1)
  }

  /**
   * The braces of lines `s..e` balance, and no shorter run from `s` balances
   * (the depth after line `s` alone is not examined).
   */
  predicate Balanced(ps: seq<LineInfo>, s: int, e: int) {
    0 <= s < e < |ps|
    && Span(ps, s, e + 1) == 0
    && forall j :: s + 1 < j <= e ==> Span(ps, s, j) != 0
  }

  /** Conversely, the first zero of the running depth is what `CloseIn` returns. */
  lemma {:induction false} CloseInOfFirstZero(ps: seq<LineInfo>, depth: int, k: nat)
    requires k < |ps|
    requires depth + Prefix(ps, k + 1) == 0
    requires forall j :: 1 <= j <= k ==> depth + Prefix(ps, j) != 0
    ensures CloseIn(ps, depth) == Some(k)
  {
    var d := depth + ps[0].delta;
    PrefixCons(ps, 1);
    assert Prefix(ps[1..], 0) == 0;
    if k > 0 {
      forall j | 1 <= j <= k - 1 ensures d + Prefix(ps[1..], j) != 0 {
        PrefixCons(ps, j + 1);
        assert depth + Prefix(ps, j + 1) != 0;
      }
      PrefixCons(ps, k + 1);
      assert d != 0 by {
        assert depth + Prefix(ps, 1) != 0;
      }
      CloseInOfFirstZero(ps[1..], d, k - 1);
    }
  }

  /** A block closes exactly where its braces first balance. */
  lemma ClosesAtBalanced(ps: seq<LineInfo>, s: int, e: int)
    requires 0 <= s < e < |ps|
    ensures ClosesAt(ps, s, e) <==> Balanced(ps, s, e)
  {
    var rest, d := ps[s + 1..], ps[s].delta;
    forall j | s < j <= |ps| ensures Span(ps, s, j) == d + Prefix(rest, j - s - 1) {
      SpanAsPrefix(ps, s, j);
    }
    if ClosesAt(ps, s, e) {
      CloseInFirstZero(rest, d);
    }
    if Balanced(ps, s, e) {
      forall j | 1 <= j <= e - s - 1 ensures d + Prefix(rest, j) != 0 {
        SpanAsPrefix(ps, s, j + s + 1);
      }
      SpanAsPrefix(ps, s, e + 1);
      CloseInOfFirstZero(rest, d, e - s - 1);
    }
  }

  function ShiftBlocks(bs: seq<Block>, o: int): (r: seq<Block>)
    ensures |r| == |bs|
    ensures forall i {:trigger r[i]} :: 0 <= i < |bs| ==> r[i] == Block(bs[i].start + o, bs[i].end + o)
  {
    seq(|bs|, i requires 0 <= i < |bs| => Block(bs[i].start + o, bs[i].end + o))
  }

  /** Line `k` lies in none of the blocks. */
  predicate Uncovered(bs: seq<Block>, k: int) {
    forall i :: 0 <= i < |bs| ==> !(bs[i].start <= k <= bs[i].end)
  }

  /**
   * What a successful scan returns: blocks in strictly increasing, non-overlapping
   * order, each opened by a matching line and closed where its depth first
   * returns to zero, and no matching line outside them.
   */
  predicate ValidScan(ps: seq<LineInfo>, bs: seq<Block>) {
    && (forall i :: 0 <= i < |bs| ==> ClosesAt(ps, bs[i].start, bs[i].end) && ps[bs[i].start].opens)
    && (forall i :: 0 <= i < |bs| - 1 ==> bs[i].end < bs[i + 1].start)
    && (forall k {:trigger Uncovered(bs, k)} :: 0 <= k < |ps| && Uncovered(bs, k) ==> !ps[k].opens)
  }

  /** The scan of `findBlocksInRange` over a slice of lines; positions are relative to the slice. */
  function Scan(ps: seq<LineInfo>): Result<seq<Block>, nat>
    decreases |ps|
  {
    if ps == [] then Ok([])
    else if !ps[0].opens then
      match Scan(ps[1..])
      case Ok(bs) => Ok(ShiftBlocks(bs, 1))
      case Err(k) => Err(k + 1)
    else match CloseIn(ps[1..], ps[0].delta)
      case None => Err(0)
      case Some(k) =>
        match Scan(ps[k + 2..])
        case Ok(bs) => Ok([Block(0, k + 1)] + ShiftBlocks(bs, k + 2))
        case Err(e) => Err(e + k + 2)
  }

  /**
   * What `Scan` promises: valid blocks, or a line that opens a block whose depth
   * never returns to zero.
   */
  predicate ScanOutcome(ps: seq<LineInfo>) {
    match Scan(ps)
    case Ok(bs) => ValidScan(ps, bs)
    case Err(k) => k < |ps| && ps[k].opens && CloseIn(ps[k + 1..], ps[k].delta) == None
  }

  lemma {:induction false} ScanSound(ps: seq<LineInfo>)
    ensures ScanOutcome(ps)
    decreases |ps|
  {
    if ps == [] {
      assert Scan(ps) == Ok([]);
    } else if !ps[0].opens {
      ScanSound(ps[1..]);
      ScanSoundSkip(ps);
    } else {
      match CloseIn(ps[1..], ps[0].delta)
      case None =>
        assert Scan(ps) == Err(0);
        assert ps[0 + 1..] == ps[1..];
      case Some(k) =>
        ScanSound(ps[k + 2..]);
        ScanSoundBlock(ps, k);
    }
  }

  lemma ScanSoundSkip(ps: seq<LineInfo>)
    requires ps != [] && !ps[0].opens
    requires ScanOutcome(ps[1..])
    ensures ScanOutcome(ps)
  {
    match Scan(ps[1..])
    case Ok(bs) =>
      assert Scan(ps) == Ok(ShiftBlocks(bs, 1));
      ScanSkipValid(ps, bs);
    case Err(k) =>
      assert Scan(ps) == Err(k + 1);
      assert ps[k + 2..] == ps[1..][k + 1..] && ps[k + 1] == ps[1..][k];
  }

  lemma ScanSoundBlock(ps: seq<LineInfo>, k: nat)
    requires ps != [] && ps[0].opens
    requires CloseIn(ps[1..], ps[0].delta) == Some(k)
    requires ScanOutcome(ps[k + 2..])
    ensures ScanOutcome(ps)
  {
    match Scan(ps[k + 2..])
    case Ok(bs) =>
      assert Scan(ps) == Ok([Block(0, k + 1)] + ShiftBlocks(bs, k + 2));
      ScanBlockValid(ps, k, bs);
    case Err(e) =>
      assert Scan(ps) == Err(e + k + 2);
      assert ps[e + k + 3..] == ps[k + 2..][e + 1..] && ps[e + k + 2] == ps[k + 2..][e];
  }

  lemma ClosesAtShift(ps: seq<LineInfo>, o: int, s: int, e: int)
    requires 0 <= o <= |ps| && ClosesAt(ps[o..], s, e)
    ensures ClosesAt(ps, s + o, e + o)
  {
    assert ps[o..][s + 1..] == ps[s + o + 1..];
    assert ps[o..][s] == ps[s + o];
  }

  lemma ScanSkipValid(ps: seq<LineInfo>, bs: seq<Block>)
    requires ps != [] && !ps[0].opens
    requires ValidScan(ps[1..], bs)
    ensures ValidScan(ps, ShiftBlocks(bs, 1))
  {
    var r := ShiftBlocks(bs, 1);
    forall i | 0 <= i < |r| ensures ClosesAt(ps, r[i].start, r[i].end) && ps[r[i].start].opens {
      ClosesAtShift(ps, 1, bs[i].start, bs[i].end);
      assert ps[bs[i].start + 1] == ps[1..][bs[i].start];
    }
    forall k | 0 <= k < |ps| && Uncovered(r, k) ensures !ps[k].opens {
      if k > 0 {
        assert Uncovered(bs, k - 1) by {
          forall i | 0 <= i < |bs| ensures !(bs[i].start <= k - 1 <= bs[i].end) {
            assert !(r[i].start <= k <= r[i].end);
          }
        }
        assert ps[k] == ps[1..][k - 1];
      }
    }
  }

  lemma ShiftedBlocksValid(ps: seq<LineInfo>, o: nat, bs: seq<Block>)
    requires o <= |ps| && ValidScan(ps[o..], bs)
    ensures var sh := ShiftBlocks(bs, o);
            forall i :: 0 <= i < |sh| ==> ClosesAt(ps, sh[i].start, sh[i].end) && ps[sh[i].start].opens
  {
    var sh := ShiftBlocks(bs, o);
    forall i | 0 <= i < |sh| ensures ClosesAt(ps, sh[i].start, sh[i].end) && ps[sh[i].start].opens {
      ClosesAtShift(ps, o, bs[i].start, bs[i].end);
      assert ps[sh[i].start] == ps[o..][bs[i].start];
    }
  }

  lemma ConsBlockUncovered(ps: seq<LineInfo>, k: nat, bs: seq<Block>)
    requires k + 2 <= |ps|
    requires forall j :: 0 <= j < |ps| - (k + 2) && Uncovered(bs, j) ==> !ps[k + 2..][j].opens
    ensures var r := [Block(0, k + 1)] + ShiftBlocks(bs, k + 2);
            forall j :: 0 <= j < |ps| && Uncovered(r, j) ==> !ps[j].opens
  {
    var sh := ShiftBlocks(bs, k + 2);
    var r := [Block(0, k + 1)] + sh;
    forall j | 0 <= j < |ps| && Uncovered(r, j) ensures !ps[j].opens {
      assert !(r[0].start <= j <= r[0].end);
      assert Uncovered(bs, j - k - 2) by {
        forall i | 0 <= i < |bs| ensures !(bs[i].start <= j - k - 2 <= bs[i].end) {
          assert r[i + 1] == sh[i];
        }
      }
      assert ps[j] == ps[k + 2..][j - k - 2];
    }
  }

  lemma ConsBlockOrdered(k: nat, bs: seq<Block>)
    requires bs != [] ==> bs[0].start >= 0
    requires forall i :: 0 <= i < |bs| - 1 ==> bs[i].end < bs[i + 1].start
    ensures var r := [Block(0, k + 1)] + ShiftBlocks(bs, k + 2);
            forall i :: 0 <= i < |r| - 1 ==> r[i].end < r[i + 1].start
  {
    var sh := ShiftBlocks(bs, k + 2);
    var r := [Block(0, k + 1)] + sh;
    forall i | 0 <= i < |r| - 1 ensures r[i].end < r[i + 1].start {
      if i > 0 {
        assert r[i] == sh[i - 1] && r[i + 1] == sh[i];
      }
    }
  }

  lemma ConsBlockCloses(ps: seq<LineInfo>, k: nat, bs: seq<Block>)
    requires ps != [] && ps[0].opens
    requires CloseIn(ps[1..], ps[0].delta) == Some(k)
    requires ValidScan(ps[k + 2..], bs)
    ensures var r := [Block(0, k + 1)] + ShiftBlocks(bs, k + 2);
            forall i :: 0 <= i < |r| ==> ClosesAt(ps, r[i].start, r[i].end) && ps[r[i].start].opens
  {
    var sh := ShiftBlocks(bs, k + 2);
    var r := [Block(0, k + 1)] + sh;
    assert ClosesAt(ps, 0, k + 1) by {
      assert ps[0 + 1..] == ps[1..];
    }
    ShiftedBlocksValid(ps, k + 2, bs);
    forall i | 0 <= i < |r| ensures ClosesAt(ps, r[i].start, r[i].end) && ps[r[i].start].opens {
      if i > 0 {
        assert r[i] == sh[i - 1];
      }
    }
  }

  lemma ScanBlockValid(ps: seq<LineInfo>, k: nat, bs: seq<Block>)
    requires ps != [] && ps[0].opens
    requires CloseIn(ps[1..], ps[0].delta) == Some(k)
    requires ValidScan(ps[k + 2..], bs)
    ensures ValidScan(ps, [Block(0, k + 1)] + ShiftBlocks(bs, k + 2))
  {
    ConsBlockCloses(ps, k, bs);
    assert bs != [] ==> ClosesAt(ps[k + 2..], bs[0].start, bs[0].end);
    ConsBlockOrdered(k, bs);
    ConsBlockUncovered(ps, k, bs);
  }

  /** The absolute result `findBlocksInRange` returns for a scan of the slice starting at line `o`. */
  function ToAbsolute(r: Result<seq<Block>, nat>, o: int): Result<seq<Block>, LocateError> {
    match r
    case Ok(bs) => Ok(ShiftBlocks(bs, o))
    case Err(k) => Err(Unclosed(k + o + 1))
  }

  function Lo(from: int): int {
    if from < 0 then 0 else from
  }

  function Hi(lines: seq<string>, to: int): int {
    if to >= |lines| then |lines| - 1 else to
  }

  /** `findBlocksInRange`: the range is clamped to the lines; an empty range yields no block. */
  function FindBlocksSpec(lines: seq<string>, p: StartPattern, from: int, to: int): Result<seq<Block>, LocateError> {
    if Lo(from) > Hi(lines, to) then Ok([])
    else ToAbsolute(Scan(Profile(lines, p)[Lo(from)..Hi(lines, to) + 1]), Lo(from))
  }

  function AppendBlocks(bs: seq<Block>, r: Result<seq<Block>, LocateError>): Result<seq<Block>, LocateError> {
    match r
    case Ok(cs) => Ok(bs + cs)
    case Err(e) => Err(e)
  }

  lemma AppendNothing(r: Result<seq<Block>, LocateError>)
    ensures AppendBlocks([], r) == r
  {
    match r
    case Ok(cs) => assert [] + cs == cs;
    case Err(_) =>
  }

  lemma AppendBlocksAssoc(a: seq<Block>, b: seq<Block>, r: Result<seq<Block>, LocateError>)
    ensures AppendBlocks(a, AppendBlocks(b, r)) == AppendBlocks(a + b, r)
  {
    match r
    case Ok(cs) => assert a + (b + cs) == a + b + cs;
    case Err(_) =>
  }

  /** The profile of a run of lines, line by line (instantiated only where a line is examined). */
  lemma ProfileFacts(ls: seq<string>, p: StartPattern)
    ensures |Profile(ls, p)| == |ls|
    ensures forall k {:trigger Matches(p, ls[k])} :: 0 <= k < |ls| ==> Profile(ls, p)[k].opens == Matches(p, ls[k])
    ensures forall k {:trigger BraceDelta(ls[k])} :: 0 <= k < |ls| ==> Profile(ls, p)[k].delta == BraceDelta(ls[k])
  {
    forall k | 0 <= k < |ls| ensures Profile(ls, p)[k] == Info(p, ls[k]) {
      ProfileAt(ls, p, k);
    }
  }

  lemma ScanStepSkip(ps: seq<LineInfo>, i: int, hi: int)
    requires 0 <= i <= hi < |ps| && !ps[i].opens
    ensures ToAbsolute(Scan(ps[i..hi + 1]), i) == ToAbsolute(Scan(ps[i + 1..hi + 1]), i + 1)
  {
    assert ps[i..hi + 1][1..] == ps[i + 1..hi + 1];
    match Scan(ps[i + 1..hi + 1])
    case Ok(bs) =>
      assert ShiftBlocks(ShiftBlocks(bs, 1), i) == ShiftBlocks(bs, i + 1);
    case Err(k) =>
  }

  lemma ScanStepUnclosed(ps: seq<LineInfo>, i: int, hi: int)
    requires 0 <= i <= hi < |ps| && ps[i].opens
    requires CloseIn(ps[i + 1..hi + 1], ps[i].delta) == None
    ensures ToAbsolute(Scan(ps[i..hi + 1]), i) == Err(Unclosed(i + 1))
  {
    assert ps[i..hi + 1][1..] == ps[i + 1..hi + 1];
  }

  lemma ShiftTwice(bs: seq<Block>, a: int, b: int)
    ensures ShiftBlocks(ShiftBlocks(bs, a), b) == ShiftBlocks(bs, a + b)
  {
  }

  lemma ShiftCons(x: Block, bs: seq<Block>, o: int)
    ensures ShiftBlocks([x] + bs, o) == [Block(x.start + o, x.end + o)] + ShiftBlocks(bs, o)
  {
  }

  /** `Scan` at a line that opens a block closing `k + 1` lines further on. */
  lemma ScanOpens(q: seq<LineInfo>, k: nat)
    requires q != [] && q[0].opens && CloseIn(q[1..], q[0].delta) == Some(k)
    ensures Scan(q) == match Scan(q[k + 2..])
                       case Ok(bs) => Ok([Block(0, k + 1)] + ShiftBlocks(bs, k + 2))
                       case Err(e) => Err(e + k + 2)
  {
  }

  /** `ScanOpens` for the slice of lines `i..hi`, whose block at line `i` closes at line `j`. */
  lemma ScanOpensAt(ps: seq<LineInfo>, i: int, j: int, hi: int)
    requires 0 <= i < j <= hi < |ps| && ps[i].opens
    requires CloseIn(ps[i + 1..hi + 1], ps[i].delta) == Some(j - i - 1)
    ensures Scan(ps[i..hi + 1]) == match Scan(ps[j + 1..hi + 1])
                                   case Ok(bs) => Ok([Block(0, j - i)] + ShiftBlocks(bs, j - i + 1))
                                   case Err(e) => Err(e + j - i + 1)
  {
    var q, k := ps[i..hi + 1], j - i - 1;
    assert q[1..] == ps[i + 1..hi + 1] by {
      DropOfSlice(ps, i, hi + 1, 1);
    }
    assert q[k + 2..] == ps[j + 1..hi + 1] by {
      DropOfSlice(ps, i, hi + 1, k + 2);
    }
    ScanOpens(q, k);
  }

  lemma ScanStepBlock(ps: seq<LineInfo>, i: int, j: int, hi: int)
    requires 0 <= i < j <= hi < |ps| && ps[i].opens
    requires CloseIn(ps[i + 1..hi + 1], ps[i].delta) == Some(j - i - 1)
    ensures ToAbsolute(Scan(ps[i..hi + 1]), i)
            == AppendBlocks([Block(i, j)], ToAbsolute(Scan(ps[j + 1..hi + 1]), j + 1))
  {
    ScanOpensAt(ps, i, j, hi);
    match Scan(ps[j + 1..hi + 1])
    case Ok(bs) =>
      ShiftAfterBlock(bs, i, j);
    case Err(k) =>
  }

  /** The blocks after a first block at `0..j - i`, all moved to start at line `i`. */
  lemma ShiftAfterBlock(bs: seq<Block>, i: int, j: int)
    ensures ShiftBlocks([Block(0, j - i)] + ShiftBlocks(bs, j - i + 1), i) == [Block(i, j)] + ShiftBlocks(bs, j + 1)
  {
    ShiftCons(Block(0, j - i), ShiftBlocks(bs, j - i + 1), i);
    ShiftTwice(bs, j - i + 1, i);
  }

  /**
   * The scan with absolute positions, from line `i` to line `hi`: the form the loop
   * of `findBlocksInRange` follows, one line or one block at a time.
   */
  function ScanFrom(ps: seq<LineInfo>, i: int, hi: int): Result<seq<Block>, LocateError>
    requires 0 <= i <= hi + 1 <= |ps|
    decreases hi + 1 - i
  {
    if i > hi then Ok([])
    else if !ps[i].opens then ScanFrom(ps, i + 1, hi)
    else match CloseIn(ps[i + 1..hi + 1], ps[i].delta)
      case None => Err(Unclosed(i + 1))
      case Some(k) => AppendBlocks([Block(i, i + k + 1)], ScanFrom(ps, i + k + 2, hi))
  }

  /** The absolute scan is the scan of the slice, shifted to where the slice starts. */
  lemma {:induction false} ScanFromScan(ps: seq<LineInfo>, i: int, hi: int)
    requires 0 <= i <= hi + 1 <= |ps|
    ensures ScanFrom(ps, i, hi) == ToAbsolute(Scan(ps[i..hi + 1]), i)
    decreases hi + 1 - i
  {
    if i > hi {
      assert ps[i..hi + 1] == [];
      assert ShiftBlocks([], i) == [];
    } else if !ps[i].opens {
      ScanFromScan(ps, i + 1, hi);
      ScanStepSkip(ps, i, hi);
    } else {
      match CloseIn(ps[i + 1..hi + 1], ps[i].delta)
      case None =>
        ScanStepUnclosed(ps, i, hi);
      case Some(k) =>
        ScanFromScan(ps, i + k + 2, hi);
        ScanStepBlock(ps, i, i + k + 1, hi);
    }
  }

  /**
   * Where a block whose depth is `depth` before line `j` closes, with absolute
   * positions: the first line from `j` to `hi` that brings the depth back to
   * zero, or -1 when none does.
   */
  function CloseAt(ps: seq<LineInfo>, j: int, hi: int, depth: int): (c: int)
    requires 0 <= j <= hi + 1 <= |ps|
    ensures c == -1 || j <= c <= hi
    decreases hi + 1 - j
  {
    if j > hi then -1
    else if depth + ps[j].delta == 0 then j
    else CloseAt(ps, j + 1, hi, depth + ps[j].delta)
  }

  /** The absolute closing line is `CloseIn` of the slice from `j`, moved to start at `j`. */
  lemma {:induction false} CloseAtIn(ps: seq<LineInfo>, j: int, hi: int, depth: int)
    requires 0 <= j <= hi + 1 <= |ps|
    ensures CloseIn(ps[j..hi + 1], depth).None? ==> CloseAt(ps, j, hi, depth) == -1
    ensures CloseIn(ps[j..hi + 1], depth).Some? ==>
              CloseAt(ps, j, hi, depth) == j + CloseIn(ps[j..hi + 1], depth).value
    decreases hi + 1 - j
  {
    if j > hi {
      assert ps[j..hi + 1] == [];
    } else {
      CloseInStep(ps, j, hi, depth);
      if depth + ps[j].delta != 0 {
        CloseAtIn(ps, j + 1, hi, depth + ps[j].delta);
      }
    }
  }

  lemma CloseInStep(ps: seq<LineInfo>, m: int, hi: int, depth: int)
    requires 0 <= m <= hi < |ps|
    ensures depth + ps[m].delta == 0 ==> CloseIn(ps[m..hi + 1], depth) == Some(0)
    ensures depth + ps[m].delta != 0 ==>
              CloseIn(ps[m..hi + 1], depth) == match CloseIn(ps[m + 1..hi + 1], depth + ps[m].delta)
                                               case None => None
                                               case Some(k) => Some(k + 1)
  {
    assert ps[m..hi + 1][1..] == ps[m + 1..hi + 1];
  }

  /** The braces of lines `s..j-1` never balance for any `j` from `s + 2` up to `hi + 1`. */
  predicate NeverBalanced(ps: seq<LineInfo>, s: int, hi: int) {
    0 <= s <= hi < |ps| && forall j :: s + 1 < j <= hi + 1 ==> Span(ps, s, j) != 0
  }

  lemma BalancedShift(ps: seq<LineInfo>, lo: int, hi: int, s: int, e: int)
    requires 0 <= lo <= hi < |ps|
    requires Balanced(ps[lo..hi + 1], s, e)
    ensures Balanced(ps, s + lo, e + lo)
  {
    var q := ps[lo..hi + 1];
    var a, z := s + lo, e + lo;
    forall j | a + 1 <= j <= z + 1 ensures Span(ps, a, j) == Span(q, s, j - lo) {
      SliceOfSlice(ps, lo, hi + 1, s, j - lo);
    }
  }

  lemma UnclosedShift(ps: seq<LineInfo>, lo: int, hi: int, k: int)
    requires 0 <= lo <= hi < |ps| && 0 <= k <= hi - lo
    requires CloseIn(ps[lo..hi + 1][k + 1..], ps[lo..hi + 1][k].delta) == None
    ensures NeverBalanced(ps, k + lo, hi)
  {
    var q := ps[lo..hi + 1];
    CloseInFirstZero(q[k + 1..], q[k].delta);
    var s := k + lo;
    forall j | s + 1 < j <= hi + 1 ensures Span(ps, s, j) != 0 {
      SpanAsPrefix(q, k, j - lo);
      SliceOfSlice(ps, lo, hi + 1, k, j - lo);
    }
  }

  /** A successful scan of lines `lo..hi`, in terms of the lines themselves. */
  predicate SoundBlocks(lines: seq<string>, p: StartPattern, lo: int, hi: int, bs: seq<Block>) {
    && 0 <= lo && hi < |lines|
    && (forall i :: 0 <= i < |bs| ==>
          && lo <= bs[i].start < bs[i].end <= hi
          && Matches(p, lines[bs[i].start])
          && Balanced(Profile(lines, p), bs[i].start, bs[i].end))
    && (forall i :: 0 <= i < |bs| - 1 ==> bs[i].end < bs[i + 1].start)
    && (forall k :: lo <= k <= hi && Uncovered(bs, k) ==> !Matches(p, lines[k]))
  }

  /** A failed scan of lines `lo..hi`: line `l` (1-based) matches and its braces never balance. */
  predicate SoundUnclosed(lines: seq<string>, p: StartPattern, lo: int, hi: int, l: int) {
    && 0 <= lo && hi < |lines|
    && lo < l <= hi + 1
    && Matches(p, lines[l - 1])
    && NeverBalanced(Profile(lines, p), l - 1, hi)
  }

  /**
   * `findBlocksInRange` in terms of the lines themselves: every block lies in the
   * clamped range, starts on a matching line, ends where its brace depth first
   * returns to zero (so `start < end`), and comes after the previous one; no
   * matching line lies outside the blocks. An error names (1-based) a matching line
   * whose braces never balance before the end of the range.
   */
  lemma FindBlocksSound(lines: seq<string>, p: StartPattern, from: int, to: int)
    ensures FindBlocksSpec(lines, p, from, to).Ok? ==>
              SoundBlocks(lines, p, Lo(from), Hi(lines, to), FindBlocksSpec(lines, p, from, to).value)
    ensures FindBlocksSpec(lines, p, from, to).Err? ==>
              SoundUnclosed(lines, p, Lo(from), Hi(lines, to), FindBlocksSpec(lines, p, from, to).error.line)
  {
    var lo, hi := Lo(from), Hi(lines, to);
    if lo <= hi {
      var q := Profile(lines, p)[lo..hi + 1];
      assert FindBlocksSpec(lines, p, from, to) == ToAbsolute(Scan(q), lo);
      match Scan(q)
      case Ok(bs) =>
        assert ValidScan(q, bs) by {
          ScanSound(q);
        }
        ScanOkSound(lines, p, lo, hi, bs);
      case Err(k) =>
        assert k < |q| && q[k].opens && CloseIn(q[k + 1..], q[k].delta) == None by {
          ScanSound(q);
        }
        ScanErrSound(lines, p, lo, hi, k);
    }
  }

  lemma ScanOkSound(lines: seq<string>, p: StartPattern, lo: int, hi: int, bs: seq<Block>)
    requires 0 <= lo <= hi < |lines|
    requires ValidScan(Profile(lines, p)[lo..hi + 1], bs)
    ensures SoundBlocks(lines, p, lo, hi, ShiftBlocks(bs, lo))
  {
    ScanOkCloses(lines, p, lo, hi, bs);
    ScanOkUncovered(lines, p, lo, hi, bs);
  }

  lemma ScanOkCloses(lines: seq<string>, p: StartPattern, lo: int, hi: int, bs: seq<Block>)
    requires 0 <= lo <= hi < |lines|
    requires ValidScan(Profile(lines, p)[lo..hi + 1], bs)
    ensures var r := ShiftBlocks(bs, lo);
            forall i :: 0 <= i < |r| ==>
              && lo <= r[i].start < r[i].end <= hi
              && Matches(p, lines[r[i].start])
              && Balanced(Profile(lines, p), r[i].start, r[i].end)
  {
    var q := Profile(lines, p)[lo..hi + 1];
    var r := ShiftBlocks(bs, lo);
    forall i | 0 <= i < |r|
      ensures lo <= r[i].start < r[i].end <= hi && Matches(p, lines[r[i].start])
      ensures Balanced(Profile(lines, p), r[i].start, r[i].end)
    {
      assert ClosesAt(q, bs[i].start, bs[i].end) && q[bs[i].start].opens;
      BlockCloses(lines, p, lo, hi, bs[i]);
    }
  }

  /** One block of a scan of lines `lo..hi`, moved to absolute positions. */
  lemma BlockCloses(lines: seq<string>, p: StartPattern, lo: int, hi: int, b: Block)
    requires 0 <= lo <= hi < |lines|
    requires var q := Profile(lines, p)[lo..hi + 1];
             ClosesAt(q, b.start, b.end) && q[b.start].opens
    ensures lo <= b.start + lo < b.end + lo <= hi && Matches(p, lines[b.start + lo])
    ensures Balanced(Profile(lines, p), b.start + lo, b.end + lo)
  {
    var ps := Profile(lines, p);
    var q := ps[lo..hi + 1];
    ClosesAtBalanced(q, b.start, b.end);
    BalancedShift(ps, lo, hi, b.start, b.end);
    assert q[b.start] == ps[b.start + lo];
    ProfileAt(lines, p, b.start + lo);
  }

  lemma ScanOkUncovered(lines: seq<string>, p: StartPattern, lo: int, hi: int, bs: seq<Block>)
    requires 0 <= lo <= hi < |lines|
    requires ValidScan(Profile(lines, p)[lo..hi + 1], bs)
    ensures var r := ShiftBlocks(bs, lo);
            forall k :: lo <= k <= hi && Uncovered(r, k) ==> !Matches(p, lines[k])
  {
    var ps := Profile(lines, p);
    var q := ps[lo..hi + 1];
    var r := ShiftBlocks(bs, lo);
    ProfileFacts(lines, p);
    forall k | lo <= k <= hi && Uncovered(r, k) ensures !Matches(p, lines[k]) {
      assert Uncovered(bs, k - lo) by {
        forall i | 0 <= i < |bs| ensures !(bs[i].start <= k - lo <= bs[i].end) {
          assert !(r[i].start <= k <= r[i].end);
        }
      }
      assert q[k - lo] == ps[k];
    }
  }

  lemma ScanErrSound(lines: seq<string>, p: StartPattern, lo: int, hi: int, k: nat)
    requires 0 <= lo <= hi < |lines|
    requires var q := Profile(lines, p)[lo..hi + 1];
             k < |q| && q[k].opens && CloseIn(q[k + 1..], q[k].delta) == None
    ensures SoundUnclosed(lines, p, lo, hi, k + lo + 1)
  {
    var ps := Profile(lines, p);
    ProfileFacts(lines, p);
    UnclosedShift(ps, lo, hi, k);
    assert ps[lo..hi + 1][k] == ps[k + lo];
  }

  /**
   * `findBlocksInRange`: scan lines `from..to` for lines matching `p`; each opens a
   * block whose end is the first later line where the running brace depth is back
   * to zero; scanning resumes after that end. A block that never closes is an error.
   */
  method FindBlocksInRange(lines: seq<string>, p: StartPattern, from: int, to: int)
    returns (r: Result<seq<Block>, LocateError>)
    ensures r == FindBlocksSpec(lines, p, from, to)
  {
    var lo, hi := from, to;
    if lo < 0 {
      lo := 0;
    }
    if hi >= |lines| {
      hi := |lines| - 1;
    }
    assert lo == Lo(from) && hi == Hi(lines, to);
    if lo > hi {
      return Ok([]);
    }
    ProfileFacts(lines, p);
    r := ScanRange(lines, p, lo, hi, Profile(lines, p));
  }

  /** The loop of `findBlocksInRange` over the clamped, non-empty range `lo..hi`. */
  method ScanRange(lines: seq<string>, p: StartPattern, lo: int, hi: int, ghost ps: seq<LineInfo>)
    returns (r: Result<seq<Block>, LocateError>)
    requires 0 <= lo <= hi < |lines| == |ps|
    requires forall k {:trigger Matches(p, lines[k])} :: 0 <= k < |ps| ==> ps[k].opens == Matches(p, lines[k])
    requires forall k {:trigger BraceDelta(lines[k])} :: 0 <= k < |ps| ==> ps[k].delta == BraceDelta(lines[k])
    ensures r == ToAbsolute(Scan(ps[lo..hi + 1]), lo)
  {
    ghost var target := ScanFrom(ps, lo, hi);
    ScanFromScan(ps, lo, hi);
    AppendNothing(target);
    var blocks: seq<Block> := [];
    var i := lo;
    while i <= hi
      invariant lo <= i <= hi + 1
      invariant target == AppendBlocks(blocks, ScanFrom(ps, i, hi))
    {
      var opens, end := ScanStep(lines, p, i, hi, ps);
      if !opens {
        i := i + 1;
      } else if end == -1 {
        return Err(Unclosed(i + 1));
      } else {
        AppendBlocksAssoc(blocks, [Block(i, end)], ScanFrom(ps, end + 1, hi));
        blocks := blocks + [Block(i, end)];
        i := end + 1;
      }
    }
    assert blocks + [] == blocks;
    return Ok(blocks);
  }

  /**
   * One step of the loop of `findBlocksInRange` at line `i`: a line that does not
   * match is passed over; a matching line opens a block, closed at `end`, or never
   * closed when `end` is -1.
   */
  method ScanStep(lines: seq<string>, p: StartPattern, i: int, hi: int, ghost ps: seq<LineInfo>)
    returns (opens: bool, end: int)
    requires 0 <= i <= hi < |lines| == |ps|
    requires forall k {:trigger Matches(p, lines[k])} :: 0 <= k < |ps| ==> ps[k].opens == Matches(p, lines[k])
    requires forall k {:trigger BraceDelta(lines[k])} :: 0 <= k < |ps| ==> ps[k].delta == BraceDelta(lines[k])
    ensures opens == ps[i].opens
    ensures !opens ==> ScanFrom(ps, i, hi) == ScanFrom(ps, i + 1, hi)
    ensures opens && end == -1 ==> ScanFrom(ps, i, hi) == Err(Unclosed(i + 1))
    ensures opens && end != -1 ==>
              i < end <= hi && ScanFrom(ps, i, hi) == AppendBlocks([Block(i, end)], ScanFrom(ps, end + 1, hi))
  {
    opens := Matches(p, lines[i]);
    end := -1;
    if opens {
      end := CloseOf(lines, i, hi, ps);
    }
  }

  /**
   * The inner loop of `findBlocksInRange`: from the line after `i`, add each line's
   * brace delta to the depth line `i` opened; the first line where it reaches zero
   * ends the block, and -1 means it never does up to line `hi`.
   */
  method CloseOf(lines: seq<string>, i: int, hi: int, ghost ps: seq<LineInfo>)
    returns (end: int)
    requires 0 <= i <= hi < |lines| == |ps|
    requires forall k {:trigger BraceDelta(lines[k])} :: 0 <= k < |ps| ==> ps[k].delta == BraceDelta(lines[k])
    ensures end == -1 ==> CloseIn(ps[i + 1..hi + 1], ps[i].delta) == None
    ensures end != -1 ==> i < end <= hi && CloseIn(ps[i + 1..hi + 1], ps[i].delta) == Some(end - i - 1)
  {
    CloseAtIn(ps, i + 1, hi, ps[i].delta);
    var depth := BraceDelta(lines[i]);
    var j := i + 1;
    while j <= hi
      invariant i + 1 <= j <= hi + 1
      invariant CloseAt(ps, i + 1, hi, ps[i].delta) == CloseAt(ps, j, hi, depth)
    {
      var d := BraceDelta(lines[j]);
      assert d == ps[j].delta;
      depth := depth + d;
      if depth == 0 {
        return j;
      }
      j := j + 1;
    }
    return -1;
  }
}
