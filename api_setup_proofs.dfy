/**
 * What the settings rewrite guarantees: the output is the per-line blocks in
 * input order followed by the static trailer, every input line survives
 * unchanged and in order, each anchor's block sits where the code puts it,
 * and the rewrite fails exactly when a `DATABASES = {` line meets an
 * unsupported database type.
 */
module ApiSetupProofs {
  import opened Text
  import opened ApiSetup
  import opened SeqFacts

  // ---------------------------------------------------------------------------
  // Where each input line's block lands
  // ---------------------------------------------------------------------------

  /** Index in the output where the block of input line `i` begins. */
  function LineStart(lines: seq<string>, dbType: string, i: nat): nat
    requires i <= |lines|
  {
    EmittedLength(lines[..i], dbType)
  }

  /** Index in the output where input line `i` itself is copied. */
  function LinePosition(lines: seq<string>, dbType: string, i: nat): nat
    requires i < |lines|
  {
    LineStart(lines, dbType, i) + |Before(lines[i])|
  }

  /** The output index of every input line. */
  function Positions(lines: seq<string>, dbType: string): seq<nat>
  {
    seq(|lines|, i requires 0 <= i < |lines| => LinePosition(lines, dbType, i))
  }

  /** `pos` embeds `xs` in `ys` in order: `xs` is a subsequence of `ys`. */
  predicate IsEmbedding(xs: seq<string>, ys: seq<string>, pos: seq<nat>)
  {
    && |pos| == |xs|
    && (forall i :: 0 <= i < |pos| ==> pos[i] < |ys| && ys[pos[i]] == xs[i])
    && (forall i, j :: 0 <= i < j < |pos| ==> pos[i] < pos[j])
  }

  /** The five anchors are mutually exclusive: they begin with five different characters. */
  lemma AnchorsExclusive(line: string)
    ensures StartsWith(line, PathlibAnchor) ==>
              !StartsWith(line, InstalledAppsAnchor) && !StartsWith(line, MiddlewareAnchor)
              && !StartsWith(line, RootUrlconfAnchor) && !StartsWith(line, DatabasesAnchor)
    ensures StartsWith(line, InstalledAppsAnchor) ==>
              !StartsWith(line, MiddlewareAnchor) && !StartsWith(line, RootUrlconfAnchor)
              && !StartsWith(line, DatabasesAnchor)
    ensures StartsWith(line, MiddlewareAnchor) ==>
              !StartsWith(line, RootUrlconfAnchor) && !StartsWith(line, DatabasesAnchor)
    ensures StartsWith(line, RootUrlconfAnchor) ==> !StartsWith(line, DatabasesAnchor)
  {
    assert PathlibAnchor[0] == 'f' && InstalledAppsAnchor[0] == 'I' && MiddlewareAnchor[0] == 'M';
    assert RootUrlconfAnchor[0] == 'R' && DatabasesAnchor[0] == 'D';
  }

  /** Each line adds at least its own 29 lines, so block starts never move backwards. */
  lemma {:induction false} LineStartGrows(lines: seq<string>, dbType: string, i: nat, j: nat)
    requires i <= j <= |lines|
    ensures LineStart(lines, dbType, i) + 29 * (j - i) <= LineStart(lines, dbType, j)
  {
    if i < j {
      LineStartGrows(lines, dbType, i, j - 1);
      PrefixOfPrefix(lines, j - 1, j);
    }
  }

  /** The block line `line` adds, empty when it raises. */
  function LineBlock(line: string, dbType: string): seq<string>
  {
    match LineOutput(line, dbType)
    case Ok(block) => block
    case Err(_) => []
  }

  /** `LineBlock` for a fixed database type, as a function of the line. */
  function BlockOf(dbType: string): string -> seq<string>
  {
    line => LineBlock(line, dbType)
  }

  /** A successful loop output is the blocks of the lines, concatenated in order. */
  lemma {:induction false} EmittedGathers(lines: seq<string>, dbType: string)
    requires Emitted(lines, dbType).Ok?
    ensures Emitted(lines, dbType).value == Gather(lines, BlockOf(dbType))
  {
    if |lines| > 0 {
      EmittedOkParts(lines, dbType);
      EmittedGathers(lines[..|lines| - 1], dbType);
    }
  }

  /** When the loop succeeds on all lines, it succeeds on every prefix of them. */
  lemma {:induction false} EmittedPrefixOk(lines: seq<string>, dbType: string, j: nat)
    requires j <= |lines| && Emitted(lines, dbType).Ok?
    ensures Emitted(lines[..j], dbType).Ok?
  {
    if j < |lines| {
      EmittedOkParts(lines, dbType);
      EmittedPrefixOk(lines[..|lines| - 1], dbType, j);
      PrefixOfPrefix(lines, j, |lines| - 1);
    } else {
      FullPrefix(lines);
    }
  }

  /** A successful rewrite succeeded on all lines but the last and on the last one. */
  lemma EmittedOkParts(lines: seq<string>, dbType: string)
    requires |lines| > 0 && Emitted(lines, dbType).Ok?
    ensures Emitted(lines[..|lines| - 1], dbType).Ok?
    ensures LineOutput(lines[|lines| - 1], dbType).Ok?
    ensures Emitted(lines, dbType).value
            == Emitted(lines[..|lines| - 1], dbType).value + LineOutput(lines[|lines| - 1], dbType).value
  {
  }

  /** The start of block `i` is the length of the gathered blocks before it. */
  lemma LineStartGathered(lines: seq<string>, dbType: string, i: nat)
    requires i <= |lines| && Emitted(lines, dbType).Ok?
    ensures LineStart(lines, dbType, i) == |Gather(lines[..i], BlockOf(dbType))|
  {
    EmittedPrefixOk(lines, dbType, i);
    EmittedGathers(lines[..i], dbType);
  }

  /** Block `i` of the loop's output is exactly what `LineOutput` yields for line `i`. */
  lemma EmittedBlockAt(lines: seq<string>, dbType: string, i: nat)
    requires i < |lines| && Emitted(lines, dbType).Ok?
    ensures LineOutput(lines[i], dbType).Ok?
    ensures LineStart(lines, dbType, i) <= LineStart(lines, dbType, i + 1) <= |Emitted(lines, dbType).value|
    ensures Emitted(lines, dbType).value[LineStart(lines, dbType, i)..LineStart(lines, dbType, i + 1)]
            == LineOutput(lines[i], dbType).value
  {
    var f := BlockOf(dbType);
    EmittedGathers(lines, dbType);
    LineStartGathered(lines, dbType, i);
    LineStartGathered(lines, dbType, i + 1);
    GatherBlockAt(lines, f, i);
    LineOutputOkAt(lines, dbType, i);
  }

  /** Line `i` of a successful loop does not raise. */
  lemma LineOutputOkAt(lines: seq<string>, dbType: string, i: nat)
    requires i < |lines| && Emitted(lines, dbType).Ok?
    ensures LineOutput(lines[i], dbType).Ok?
    ensures BlockOf(dbType)(lines[i]) == LineOutput(lines[i], dbType).value
  {
    EmittedPrefixOk(lines, dbType, i + 1);
    EmittedOkParts(lines[..i + 1], dbType);
    assert lines[..i + 1][i] == lines[i];
  }

  /**
   * The whole output, block by block: the lines between the starts of block
   * `i` and block `i + 1` are what line `i` produces, and the blocks end where
   * the trailer begins.
   */
  lemma UpdatedSettingsBlockAt(lines: seq<string>, dbType: string, out: seq<string>, i: nat)
    requires UpdatedSettings(lines, dbType) == Ok(out) && i < |lines|
    ensures LineOutput(lines[i], dbType).Ok?
    ensures LineStart(lines, dbType, i) <= LineStart(lines, dbType, i + 1)
    ensures LineStart(lines, dbType, i + 1) + |StaticLines| <= |out|
    ensures out[LineStart(lines, dbType, i)..LineStart(lines, dbType, i + 1)]
            == LineOutput(lines[i], dbType).value
  {
    EmittedBlockAt(lines, dbType, i);
    var body := Emitted(lines, dbType).value;
    assert out == body + StaticLines;
    SliceOfAppendLeft(body, StaticLines, LineStart(lines, dbType, i), LineStart(lines, dbType, i + 1));
  }

  /** A piece of block `i`, read off the output. */
  lemma OutputPiece(lines: seq<string>, dbType: string, out: seq<string>, i: nat, x: nat, y: nat)
    requires UpdatedSettings(lines, dbType) == Ok(out) && i < |lines|
    requires LineOutput(lines[i], dbType).Ok? && x <= y <= |LineOutput(lines[i], dbType).value|
    ensures LineStart(lines, dbType, i) + y <= |out|
    ensures out[LineStart(lines, dbType, i) + x..LineStart(lines, dbType, i) + y]
            == LineOutput(lines[i], dbType).value[x..y]
  {
    UpdatedSettingsBlockAt(lines, dbType, out, i);
    var lo := LineStart(lines, dbType, i);
    SliceWithin(out, lo, LineStart(lines, dbType, i + 1), LineOutput(lines[i], dbType).value, x, y);
  }

  /** What is appended for one line after the line itself, whichever anchors match. */
  lemma LineOutputShape(line: string, dbType: string)
    requires LineOutput(line, dbType).Ok?
    ensures |LineBlocks(line)| <= |LineOutput(line, dbType).value|
    ensures LineOutput(line, dbType).value[..|LineBlocks(line)|] == LineBlocks(line)
    ensures StartsWith(line, DatabasesAnchor) ==>
              DatabaseBlock(dbType).Ok?
              && LineOutput(line, dbType).value[|LineBlocks(line)|..|LineOutput(line, dbType).value|]
                 == [DatabaseCommentLine] + DatabaseBlock(dbType).value
    ensures !StartsWith(line, DatabasesAnchor) ==> LineOutput(line, dbType).value == LineBlocks(line)
  {
    if StartsWith(line, DatabasesAnchor) {
      var v := DatabaseBlock(dbType).value;
      assert LineOutput(line, dbType).value == LineBlocks(line) + [DatabaseCommentLine] + v;
      Split3(LineBlocks(line), [DatabaseCommentLine], v);
    } else {
      FullPrefix(LineBlocks(line));
    }
  }

  /** The sizes of the pieces of `LineBlocks(line)`. */
  lemma LineBlocksSizes(line: string)
    ensures |Before(line)| == if StartsWith(line, PathlibAnchor) then 3 else 0
    ensures |AnchorBlock(line)| == AnchorEntryCount(line)
    ensures |LineBlocks(line)| == |Before(line)| + 1 + AnchorEntryCount(line) + 28
  {
  }

  /** `out` holds the blocks of `line`, the line itself among them, from index `s` on. */
  predicate BlocksAt(out: seq<string>, s: nat, line: string)
  {
    s + |LineBlocks(line)| <= |out| && out[s..s + |LineBlocks(line)|] == LineBlocks(line)
  }

  /** The output holds the blocks of every input line at that line's start. */
  lemma LineBlocksAt(lines: seq<string>, dbType: string, out: seq<string>, i: nat)
    requires UpdatedSettings(lines, dbType) == Ok(out) && i < |lines|
    ensures BlocksAt(out, LineStart(lines, dbType, i), lines[i])
  {
    UpdatedSettingsBlockAt(lines, dbType, out, i);
    LineOutputShape(lines[i], dbType);
    var block := LineOutput(lines[i], dbType).value;
    PrefixWithin(out, LineStart(lines, dbType, i), LineStart(lines, dbType, i + 1), block, |LineBlocks(lines[i])|);
  }

  // ---------------------------------------------------------------------------
  // Append-only
  // ---------------------------------------------------------------------------

  /** Input line `i` sits at its position, inside its own block. */
  lemma LineCopiedAt(lines: seq<string>, dbType: string, out: seq<string>, i: nat)
    requires UpdatedSettings(lines, dbType) == Ok(out) && i < |lines|
    ensures LinePosition(lines, dbType, i) < |out|
    ensures out[LinePosition(lines, dbType, i)] == lines[i]
  {
    LineBlocksAt(lines, dbType, out, i);
    LineAt(out, LineStart(lines, dbType, i), lines[i]);
  }

  /** Within its blocks, a line sits right after what is inserted before it. */
  lemma LineAt(out: seq<string>, s: nat, line: string)
    requires BlocksAt(out, s, line)
    ensures s + |Before(line)| < |out| && out[s + |Before(line)|] == line
  {
    var blocks := LineBlocks(line);
    Pieces5(Before(line), [line], AnchorBlock(line), RestFrameworkLines, SimpleJwtLines);
    assert blocks[|Before(line)|..|Before(line)| + 1] == [line];
    assert out[s..s + |blocks|][|Before(line)|] == blocks[|Before(line)|];
  }

  /** Every input line appears in the output unchanged, in its original order. */
  lemma UpdatedSettingsAppendOnly(lines: seq<string>, dbType: string, out: seq<string>)
    requires UpdatedSettings(lines, dbType) == Ok(out)
    ensures IsEmbedding(lines, out, Positions(lines, dbType))
  {
    LinesCopied(lines, dbType, out);
    PositionsIncrease(lines, dbType);
  }

  /** Every input line is found at its position in the output. */
  lemma LinesCopied(lines: seq<string>, dbType: string, out: seq<string>)
    requires UpdatedSettings(lines, dbType) == Ok(out)
    ensures forall i :: 0 <= i < |lines| ==>
              LinePosition(lines, dbType, i) < |out| && out[LinePosition(lines, dbType, i)] == lines[i]
  {
    forall i | 0 <= i < |lines|
      ensures LinePosition(lines, dbType, i) < |out| && out[LinePosition(lines, dbType, i)] == lines[i]
    {
      LineCopiedAt(lines, dbType, out, i);
    }
  }

  /** Positions grow strictly with the input index. */
  lemma PositionsIncrease(lines: seq<string>, dbType: string)
    ensures forall i, j :: 0 <= i < j < |lines| ==> LinePosition(lines, dbType, i) < LinePosition(lines, dbType, j)
  {
    forall i, j | 0 <= i < j < |lines|
      ensures LinePosition(lines, dbType, i) < LinePosition(lines, dbType, j)
    {
      LineStartGrows(lines, dbType, i, j);
    }
  }

  // ---------------------------------------------------------------------------
  // Placement of the blocks
  // ---------------------------------------------------------------------------

  /** A `from pathlib import Path` line is immediately preceded by the three dotenv lines. */
  lemma UpdatedSettingsDotenvBefore(lines: seq<string>, dbType: string, out: seq<string>, i: nat)
    requires UpdatedSettings(lines, dbType) == Ok(out) && i < |lines|
    requires StartsWith(lines[i], PathlibAnchor)
    ensures 3 <= LinePosition(lines, dbType, i) < |out|
    ensures out[LinePosition(lines, dbType, i)] == lines[i]
    ensures out[LinePosition(lines, dbType, i) - 3..LinePosition(lines, dbType, i)] == DotenvLines
  {
    LineCopiedAt(lines, dbType, out, i);
    LineBlocksAt(lines, dbType, out, i);
    DotenvAt(out, LineStart(lines, dbType, i), lines[i]);
  }

  /** A pathlib line's blocks open with the three dotenv lines. */
  lemma DotenvAt(out: seq<string>, s: nat, line: string)
    requires BlocksAt(out, s, line) && StartsWith(line, PathlibAnchor)
    ensures |Before(line)| == 3
    ensures out[s + |Before(line)| - 3..s + |Before(line)|] == DotenvLines
  {
    Pieces5(Before(line), [line], AnchorBlock(line), RestFrameworkLines, SimpleJwtLines);
    SliceWithin(out, s, s + |LineBlocks(line)|, LineBlocks(line), 0, 3);
  }

  /**
   * The list entries follow their anchor line directly: 7 apps after
   * `INSTALLED_APPS = [`, 2 middlewares after `MIDDLEWARE = [`, one entry
   * after `ROOT_URLCONF = '`.
   */
  lemma UpdatedSettingsAnchorEntries(lines: seq<string>, dbType: string, out: seq<string>, i: nat)
    requires UpdatedSettings(lines, dbType) == Ok(out) && i < |lines|
    ensures LinePosition(lines, dbType, i) + 1 + AnchorEntryCount(lines[i]) <= |out|
    ensures StartsWith(lines[i], InstalledAppsAnchor) ==>
              out[LinePosition(lines, dbType, i) + 1..LinePosition(lines, dbType, i) + 8] == InstalledAppLines
    ensures StartsWith(lines[i], MiddlewareAnchor) ==>
              out[LinePosition(lines, dbType, i) + 1..LinePosition(lines, dbType, i) + 3] == MiddlewareLines
    ensures StartsWith(lines[i], RootUrlconfAnchor) ==>
              out[LinePosition(lines, dbType, i) + 1..LinePosition(lines, dbType, i) + 2] == RootUrlconfLines
  {
    LineBlocksAt(lines, dbType, out, i);
    EntriesAt(out, LineStart(lines, dbType, i), lines[i]);
    AnchorBlockCases(lines[i]);
  }

  /** Within its blocks, the list entries come right after the line. */
  lemma EntriesAt(out: seq<string>, s: nat, line: string)
    requires BlocksAt(out, s, line)
    ensures s + |Before(line)| + 1 + AnchorEntryCount(line) <= |out|
    ensures out[s + |Before(line)| + 1..s + |Before(line)| + 1 + AnchorEntryCount(line)] == AnchorBlock(line)
  {
    LineBlocksSizes(line);
    Pieces5(Before(line), [line], AnchorBlock(line), RestFrameworkLines, SimpleJwtLines);
    var x := |Before(line)| + 1;
    SliceWithin(out, s, s + |LineBlocks(line)|, LineBlocks(line), x, x + AnchorEntryCount(line));
  }

  /** Which entries an anchor line gets. */
  lemma AnchorBlockCases(line: string)
    ensures StartsWith(line, InstalledAppsAnchor) ==> AnchorBlock(line) == InstalledAppLines && AnchorEntryCount(line) == 7
    ensures StartsWith(line, MiddlewareAnchor) ==> AnchorBlock(line) == MiddlewareLines && AnchorEntryCount(line) == 2
    ensures StartsWith(line, RootUrlconfAnchor) ==> AnchorBlock(line) == RootUrlconfLines && AnchorEntryCount(line) == 1
  {
    AnchorsExclusive(line);
  }

  /**
   * After EVERY input line, once its list entries (if any) are out, come the
   * 10-line REST_FRAMEWORK block and the 18-line SIMPLE_JWT block, whatever
   * the line holds.
   */
  lemma UpdatedSettingsConfigAfterEveryLine(lines: seq<string>, dbType: string, out: seq<string>, i: nat)
    requires UpdatedSettings(lines, dbType) == Ok(out) && i < |lines|
    ensures LinePosition(lines, dbType, i) + 1 + AnchorEntryCount(lines[i]) + 28 <= |out|
    ensures out[LinePosition(lines, dbType, i) + 1 + AnchorEntryCount(lines[i])
                ..LinePosition(lines, dbType, i) + 1 + AnchorEntryCount(lines[i]) + 28]
            == RestFrameworkLines + SimpleJwtLines
  {
    LineBlocksAt(lines, dbType, out, i);
    ConfigAt(out, LineStart(lines, dbType, i), lines[i]);
  }

  /** Within its blocks, the two configuration blocks come after the line and its entries. */
  lemma ConfigAt(out: seq<string>, s: nat, line: string)
    requires BlocksAt(out, s, line)
    ensures s + |Before(line)| + 1 + AnchorEntryCount(line) + 28 <= |out|
    ensures out[s + |Before(line)| + 1 + AnchorEntryCount(line)..s + |Before(line)| + 1 + AnchorEntryCount(line) + 28]
            == RestFrameworkLines + SimpleJwtLines
  {
    LineBlocksSizes(line);
    Pieces5(Before(line), [line], AnchorBlock(line), RestFrameworkLines, SimpleJwtLines);
    var x := |Before(line)| + 1 + AnchorEntryCount(line);
    SliceWithin(out, s, s + |LineBlocks(line)|, LineBlocks(line), x, x + 28);
  }

  /**
   * A `DATABASES = {` line is followed, after the 28 configuration lines and
   * not directly, by the comment line and the connection block of the chosen type.
   */
  lemma UpdatedSettingsDatabaseBlock(lines: seq<string>, dbType: string, out: seq<string>, i: nat)
    requires UpdatedSettings(lines, dbType) == Ok(out) && i < |lines|
    requires StartsWith(lines[i], DatabasesAnchor)
    ensures DatabaseBlock(dbType).Ok?
    ensures LinePosition(lines, dbType, i) + 30 + |DatabaseBlock(dbType).value| <= |out|
    ensures out[LinePosition(lines, dbType, i) + 29..LinePosition(lines, dbType, i) + 30 + |DatabaseBlock(dbType).value|]
            == [DatabaseCommentLine] + DatabaseBlock(dbType).value
  {
    var line := lines[i];
    UpdatedSettingsBlockAt(lines, dbType, out, i);
    LineOutputShape(line, dbType);
    DatabaseLineBlocks(line);
    OutputPiece(lines, dbType, out, i, 29, |LineOutput(line, dbType).value|);
  }

  /** A `DATABASES = {` line matches no other anchor: its own blocks are 29 lines. */
  lemma DatabaseLineBlocks(line: string)
    requires StartsWith(line, DatabasesAnchor)
    ensures |Before(line)| == 0 && |LineBlocks(line)| == 29
  {
    AnchorsExclusive(line);
    LineBlocksSizes(line);
  }

  // ---------------------------------------------------------------------------
  // Length and failure
  // ---------------------------------------------------------------------------

  /** Per-line line count, written out: 29 for every line plus what its anchors add. */
  function ExpectedLineCount(line: string, dbType: string): nat
  {
    if StartsWith(line, PathlibAnchor) then 29 + 3
    else if StartsWith(line, InstalledAppsAnchor) then 29 + 7
    else if StartsWith(line, MiddlewareAnchor) then 29 + 2
    else if StartsWith(line, RootUrlconfAnchor) then 29 + 1
    else if StartsWith(line, DatabasesAnchor) then
      (if Lower(dbType) == "sqlite" then 29 + 1 + 4 else 29 + 1 + 8)
    else 29
  }

  /** Sum of the per-line counts. */
  function ExpectedBodyLength(lines: seq<string>, dbType: string): nat
  {
    if |lines| == 0 then 0 else ExpectedLineCount(lines[0], dbType) + ExpectedBodyLength(lines[1..], dbType)
  }

  /** Exact output length on success: the per-line counts plus the four trailer lines. */
  lemma {:induction false} UpdatedSettingsLength(lines: seq<string>, dbType: string, out: seq<string>)
    requires UpdatedSettings(lines, dbType) == Ok(out)
    ensures |out| == ExpectedBodyLength(lines, dbType) + 4
  {
    EmittedLengthMatches(lines, dbType);
  }

  lemma {:induction false} EmittedLengthMatches(lines: seq<string>, dbType: string)
    requires Emitted(lines, dbType).Ok?
    ensures EmittedLength(lines, dbType) == ExpectedBodyLength(lines, dbType)
  {
    if |lines| > 0 {
      var n := |lines|;
      var init := lines[..n - 1];
      EmittedOkParts(lines, dbType);
      EmittedLengthMatches(init, dbType);
      LineCountMatches(lines[n - 1], dbType);
      ExpectedBodyLengthSnoc(init, lines[n - 1], dbType);
      assert init + [lines[n - 1]] == lines;
    }
  }

  /** The per-line count agrees with what `update_settings` appends, when the line does not raise. */
  lemma LineCountMatches(line: string, dbType: string)
    requires StartsWith(line, DatabasesAnchor) ==> IsSupportedDatabase(dbType)
    ensures 29 + ExtraLines(line, dbType) == ExpectedLineCount(line, dbType)
  {
    AnchorsExclusive(line);
  }

  lemma {:induction false} ExpectedBodyLengthSnoc(lines: seq<string>, line: string, dbType: string)
    ensures ExpectedBodyLength(lines + [line], dbType)
            == ExpectedBodyLength(lines, dbType) + ExpectedLineCount(line, dbType)
  {
    if |lines| > 0 {
      assert (lines + [line])[1..] == lines[1..] + [line];
      ExpectedBodyLengthSnoc(lines[1..], line, dbType);
    }
  }

  /** Some input line starts with `DATABASES = {`. */
  predicate HasDatabasesLine(lines: seq<string>)
  {
    exists i :: 0 <= i < |lines| && StartsWith(lines[i], DatabasesAnchor)
  }

  /**
   * The rewrite fails exactly when a `DATABASES = {` line is present and the
   * type is unsupported; without such a line any type succeeds.
   */
  lemma {:induction false} UpdatedSettingsFailsIff(lines: seq<string>, dbType: string)
    ensures UpdatedSettings(lines, dbType).Err? <==> HasDatabasesLine(lines) && !IsSupportedDatabase(dbType)
    ensures UpdatedSettings(lines, dbType).Err? ==> UpdatedSettings(lines, dbType).error == UnsupportedDatabase(dbType)
  {
    EmittedFailsIff(lines, dbType);
  }

  lemma {:induction false} EmittedFailsIff(lines: seq<string>, dbType: string)
    ensures Emitted(lines, dbType).Err? <==> HasDatabasesLine(lines) && !IsSupportedDatabase(dbType)
  {
    if |lines| > 0 {
      var n := |lines|;
      var init := lines[..n - 1];
      EmittedFailsIff(init, dbType);
      if HasDatabasesLine(init) {
        var k :| 0 <= k < |init| && StartsWith(init[k], DatabasesAnchor);
        assert lines[k] == init[k];
      }
      if HasDatabasesLine(lines) && !StartsWith(lines[n - 1], DatabasesAnchor) {
        var k :| 0 <= k < |lines| && StartsWith(lines[k], DatabasesAnchor);
        assert init[k] == lines[k];
      }
    }
  }

  // ---------------------------------------------------------------------------
  // Database variants
  // ---------------------------------------------------------------------------

  /** A connection block sets the option `key` (a line `        '<key>': ...`). */
  predicate SetsKey(block: seq<string>, key: string)
  {
    exists l :: l in block && StartsWith(l, "        '" + key + "':")
  }

  /** A line whose tenth character is not the key's first does not set that key. */
  lemma NotSettingKey(l: string, key: string)
    requires |key| > 0 && (|l| <= 9 || l[9] != key[0])
    ensures !StartsWith(l, "        '" + key + "':")
  {
    var prefix := "        '" + key + "':";
    StartsWithSlice(l, prefix);
    assert prefix[9] == key[0];
    if |prefix| <= |l| {
      assert l[..|prefix|][9] != prefix[9];
    }
  }

  /** The sqlite block has no HOST or PORT line. */
  lemma SqliteSetsNoHost()
    ensures !SetsKey(SqliteLines, "HOST") && !SetsKey(SqliteLines, "PORT")
  {
    forall l | l in SqliteLines
      ensures !StartsWith(l, "        '" + "HOST" + "':") && !StartsWith(l, "        '" + "PORT" + "':")
    {
      assert |l| <= 9 || (l[9] != 'H' && l[9] != 'P');
      NotSettingKey(l, "HOST");
      NotSettingKey(l, "PORT");
    }
  }

  /**
   * The three variants: sqlite uses the sqlite3 engine and sets no HOST or
   * PORT; postgresql and mysql use their engines on localhost with ports
   * 5432 and 3306.
   */
  lemma DatabaseVariants(dbType: string)
    ensures Lower(dbType) == "sqlite" ==>
              DatabaseBlock(dbType).Ok?
              && "        'ENGINE': 'django.db.backends.sqlite3',\n" in DatabaseBlock(dbType).value
              && !SetsKey(DatabaseBlock(dbType).value, "HOST")
              && !SetsKey(DatabaseBlock(dbType).value, "PORT")
    ensures Lower(dbType) == "postgresql" ==>
              DatabaseBlock(dbType).Ok?
              && "        'ENGINE': 'django.db.backends.postgresql',\n" in DatabaseBlock(dbType).value
              && "        'HOST': 'localhost',\n" in DatabaseBlock(dbType).value
              && "        'PORT': '5432',\n" in DatabaseBlock(dbType).value
    ensures Lower(dbType) == "mysql" ==>
              DatabaseBlock(dbType).Ok?
              && "        'ENGINE': 'django.db.backends.mysql',\n" in DatabaseBlock(dbType).value
              && "        'HOST': 'localhost',\n" in DatabaseBlock(dbType).value
              && "        'PORT': '3306',\n" in DatabaseBlock(dbType).value
  {
    SqliteSetsNoHost();
  }

  /** For every spelling: each database kind is chosen exactly when the type spells its name in any case. */
  lemma DatabaseAnyCase(dbType: string)
    ensures ParseDatabase(dbType) == Ok(Sqlite) <==> SpellsIgnoringCase(dbType, "sqlite")
    ensures ParseDatabase(dbType) == Ok(Postgresql) <==> SpellsIgnoringCase(dbType, "postgresql")
    ensures ParseDatabase(dbType) == Ok(Mysql) <==> SpellsIgnoringCase(dbType, "mysql")
    ensures IsSupportedDatabase(dbType) <==>
              SpellsIgnoringCase(dbType, "sqlite") || SpellsIgnoringCase(dbType, "postgresql")
              || SpellsIgnoringCase(dbType, "mysql")
  {
    assert NoCapitals("sqlite") && NoCapitals("postgresql") && NoCapitals("mysql");
    LowerEqualsIff(dbType, "sqlite");
    LowerEqualsIff(dbType, "postgresql");
    LowerEqualsIff(dbType, "mysql");
  }

  /** The type is compared after lower-casing: the prompt's spellings select the same blocks. */
  lemma DatabaseChoicesIgnoreCase()
    ensures DatabaseBlock("SQLite") == Ok(SqliteLines)
    ensures DatabaseBlock("PostgreSQL") == Ok(PostgresqlLines)
    ensures DatabaseBlock("MySQL") == Ok(MysqlLines)
    ensures DatabaseBlock("Oracle") == Err(UnsupportedDatabase("Oracle"))
  {
    assert Lower("SQLite") == "sqlite";
    assert Lower("PostgreSQL") == "postgresql";
    assert Lower("MySQL") == "mysql";
    assert Lower("Oracle") == "oracle";
  }
}
