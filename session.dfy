/**
 * The session layer (space-killer-react/src/game/state.js): the leaderboard
 * kept in the state, the initial state and the reducer that maps UI actions
 * onto engine steps. Identifiers from `generateScoreId` and the clock are
 * parameters: `mint(i)` is the identifier minted for the i-th stored entry,
 * `now` the current time.
 */
module Session {
  import opened Constants
  import opened Grid
  import opened Board
  import opened Status
  import opened GameState
  import opened Oracle
  import opened Player
  import opened Progression
  import opened Engine

  /**
   * A stored leaderboard entry as parsed: any field may be missing, and a
   * field that is not a number counts as missing. A `null` entry is one
   * whose score is missing.
   */
  datatype RawEntry = RawEntry(id: Option<string>, score: Option<int>, level: Option<int>, timestamp: Option<int>)

  /** The normalised form of a scored entry: missing id minted, level 1, timestamp now. */
  function Complete(e: RawEntry, i: int, mint: int -> string, now: int): (n: ScoreEntry)
    requires e.score.Some?
    ensures n.score == e.score.value
    ensures n.id == (if e.id.Some? then e.id.value else mint(i))
    ensures e.level.None? ==> n.level == 1
    ensures e.level.Some? ==> n.level == e.level.value
    ensures e.timestamp.None? ==> n.timestamp == now
    ensures e.timestamp.Some? ==> n.timestamp == e.timestamp.value
  {
    ScoreEntry(if e.id.Some? then e.id.value else mint(i),
               e.score.value,
               if e.level.Some? then e.level.value else 1,
               if e.timestamp.Some? then e.timestamp.value else now)
  }

  /** The positions of the entries with a numeric score, in increasing order. */
  function ScoredIndices(raw: seq<RawEntry>): (idx: seq<nat>)
    ensures forall k :: 0 <= k < |idx| ==> idx[k] < |raw| && raw[idx[k]].score.Some?
    ensures forall k, l :: 0 <= k < l < |idx| ==> idx[k] < idx[l]
    ensures forall i :: 0 <= i < |raw| && raw[i].score.Some? ==> i in idx
  {
    if raw == [] then []
    else
      var n := |raw| - 1;
      var front := ScoredIndices(raw[..n]);
      assert forall k :: 0 <= k < |front| ==> raw[front[k]] == raw[..n][front[k]];
      assert forall i :: 0 <= i < n ==> raw[i] == raw[..n][i];
      front + (if raw[n].score.Some? then [n] else [])
  }

  /** The filter and map steps: entries without a numeric score are dropped, the rest completed. */
  function Kept(raw: seq<RawEntry>, mint: int -> string, now: int): (kept: seq<ScoreEntry>)
    ensures |kept| <= |raw|
    ensures (forall i :: 0 <= i < |raw| ==> raw[i].score.Some?) ==> |kept| == |raw|
    ensures (forall i :: 0 <= i < |raw| ==> raw[i].score.None?) ==> kept == []
    ensures forall k :: 0 <= k < |kept| ==> exists i :: 0 <= i < |raw| && raw[i].score == Some(kept[k].score)
  {
    if raw == [] then []
    else
      var n := |raw| - 1;
      var front := Kept(raw[..n], mint, now);
      assert forall k :: 0 <= k < |front| ==> exists i :: 0 <= i < |raw| && raw[i].score == Some(front[k].score) by {
        forall k | 0 <= k < |front|
          ensures exists i :: 0 <= i < |raw| && raw[i].score == Some(front[k].score)
        {
          var i :| 0 <= i < n && raw[..n][i].score == Some(front[k].score);
          assert raw[i] == raw[..n][i];
        }
      }
      front + (if raw[n].score.Some? then [Complete(raw[n], n, mint, now)] else [])
  }

  /** As many entries are kept as have a numeric score. */
  lemma {:induction false} KeptLength(raw: seq<RawEntry>, mint: int -> string, now: int)
    ensures |Kept(raw, mint, now)| == |ScoredIndices(raw)|
  {
    if raw != [] {
      KeptLength(raw[..|raw| - 1], mint, now);
    }
  }

  /** The k-th kept entry is the k-th scored entry, completed. */
  lemma {:induction false} KeptAt(raw: seq<RawEntry>, mint: int -> string, now: int, k: nat)
    requires k < |ScoredIndices(raw)|
    ensures |Kept(raw, mint, now)| == |ScoredIndices(raw)|
    ensures Kept(raw, mint, now)[k] == Complete(raw[ScoredIndices(raw)[k]], ScoredIndices(raw)[k], mint, now)
  {
    KeptLength(raw, mint, now);
    var n := |raw| - 1;
    var idx := ScoredIndices(raw[..n]);
    if k < |idx| {
      KeptAt(raw[..n], mint, now, k);
      assert Kept(raw, mint, now)[k] == Kept(raw[..n], mint, now)[k];
      assert ScoredIndices(raw)[k] == idx[k];
      assert raw[idx[k]] == raw[..n][idx[k]];
    } else {
      KeptLength(raw[..n], mint, now);
    }
  }

  /**
   * Exactly the scored entries are kept, in their stored order: the k-th
   * kept entry is the k-th scored entry, completed.
   */
  lemma KeptByIndex(raw: seq<RawEntry>, mint: int -> string, now: int)
    ensures |Kept(raw, mint, now)| == |ScoredIndices(raw)|
    ensures forall k :: 0 <= k < |ScoredIndices(raw)| ==>
              Kept(raw, mint, now)[k] == Complete(raw[ScoredIndices(raw)[k]], ScoredIndices(raw)[k], mint, now)
  {
    KeptLength(raw, mint, now);
    forall k | 0 <= k < |ScoredIndices(raw)|
      ensures Kept(raw, mint, now)[k] == Complete(raw[ScoredIndices(raw)[k]], ScoredIndices(raw)[k], mint, now)
    {
      KeptAt(raw, mint, now, k);
    }
  }

  /**
   * The order of the leaderboard comparator: `a` sorts strictly before `b`
   * when it has the higher score, then the higher level, then the earlier
   * timestamp.
   */
  predicate Ahead(a: ScoreEntry, b: ScoreEntry) {
    a.score > b.score ||
    (a.score == b.score && (a.level > b.level || (a.level == b.level && a.timestamp < b.timestamp)))
  }

  /** No entry sorts strictly before an earlier one. */
  predicate Sorted(s: seq<ScoreEntry>) {
    forall i, j :: 0 <= i < j < |s| ==> !Ahead(s[j], s[i])
  }

  /** A well-formed leaderboard: sorted and at most ten entries long. */
  predicate Leaderboard(s: seq<ScoreEntry>) {
    Sorted(s) && |s| <= HIGH_SCORE_LIMIT
  }

  /**
   * Stable insertion: `e` goes before the first entry it is strictly ahead
   * of, so after every entry that ties with it.
   */
  function Insert(e: ScoreEntry, s: seq<ScoreEntry>): (r: seq<ScoreEntry>)
    ensures |r| == |s| + 1
    ensures multiset(r) == multiset(s) + multiset{e}
  {
    if s == [] then [e]
    else if Ahead(e, s[0]) then [e] + s
    else
      assert s == [s[0]] + s[1..];
      [s[0]] + Insert(e, s[1..])
  }

  /** Insertion into a sorted list keeps it sorted. */
  lemma {:induction false} InsertSorted(e: ScoreEntry, s: seq<ScoreEntry>)
    requires Sorted(s)
    ensures Sorted(Insert(e, s))
  {
    if s != [] && !Ahead(e, s[0]) {
      var tail := Insert(e, s[1..]);
      InsertSorted(e, s[1..]);
      forall j | 0 <= j < |tail|
        ensures !Ahead(tail[j], s[0])
      {
        assert tail[j] in multiset(tail);
        if tail[j] != e {
          assert tail[j] in multiset(s[1..]);
          var k :| 0 <= k < |s[1..]| && s[1..][k] == tail[j];
          assert s[k + 1] == tail[j];
        }
      }
      assert Insert(e, s) == [s[0]] + tail;
    }
  }

  /** The stable sort `Array.prototype.sort` performs with the leaderboard comparator. */
  function SortEntries(s: seq<ScoreEntry>): (r: seq<ScoreEntry>)
    ensures |r| == |s|
    ensures multiset(r) == multiset(s)
    ensures Sorted(r)
  {
    if s == [] then []
    else
      var n := |s| - 1;
      assert s == s[..n] + [s[n]];
      InsertSorted(s[n], SortEntries(s[..n]));
      Insert(s[n], SortEntries(s[..n]))
  }

  /** The sort and slice steps: the ten entries that sort first. */
  function Top(kept: seq<ScoreEntry>): (r: seq<ScoreEntry>)
    ensures Leaderboard(r)
    ensures |r| == Min(HIGH_SCORE_LIMIT, |kept|)
    ensures multiset(r) <= multiset(kept)
  {
    var sorted := SortEntries(kept);
    var top := sorted[..Min(HIGH_SCORE_LIMIT, |sorted|)];
    assert sorted == top + sorted[|top|..];
    top
  }

  /** `normaliseHighScores`: `None` is a value that is not an array. */
  function Normalise(raw: Option<seq<RawEntry>>, mint: int -> string, now: int): (r: seq<ScoreEntry>)
    ensures Leaderboard(r)
    ensures raw.None? ==> r == []
    ensures raw.Some? ==> |r| == Min(HIGH_SCORE_LIMIT, |Kept(raw.value, mint, now)|)
    ensures raw.Some? ==> multiset(r) <= multiset(Kept(raw.value, mint, now))
  {
    if raw.None? then [] else Top(Kept(raw.value, mint, now))
  }

  /** A normalised entry written back as a stored one. */
  function Stored(hs: seq<ScoreEntry>): (raw: seq<RawEntry>)
    ensures |raw| == |hs|
    ensures forall k :: 0 <= k < |hs| ==>
              raw[k] == RawEntry(Some(hs[k].id), Some(hs[k].score), Some(hs[k].level), Some(hs[k].timestamp))
  {
    if hs == [] then []
    else
      var n := |hs| - 1;
      var e := hs[n];
      Stored(hs[..n]) + [RawEntry(Some(e.id), Some(e.score), Some(e.level), Some(e.timestamp))]
  }

  /** Whether some entry carries the identifier. */
  predicate Listed(hs: seq<ScoreEntry>, id: string) {
    exists k :: 0 <= k < |hs| && hs[k].id == id
  }

  /** Normalisation keeps every entry it is given and mints nothing for complete entries. */
  lemma {:induction false} KeptStored(hs: seq<ScoreEntry>, mint: int -> string, now: int)
    ensures Kept(Stored(hs), mint, now) == hs
  {
    if hs != [] {
      var n := |hs| - 1;
      var raw := Stored(hs);
      assert raw[..n] == Stored(hs[..n]);
      KeptStored(hs[..n], mint, now);
      assert hs == hs[..n] + [hs[n]];
    }
  }

  /** An entry that is strictly ahead of nothing in a sorted list is inserted at its end. */
  lemma {:induction false} InsertLast(e: ScoreEntry, s: seq<ScoreEntry>)
    requires Sorted(s)
    requires forall k :: 0 <= k < |s| ==> !Ahead(e, s[k])
    ensures Insert(e, s) == s + [e]
  {
    if s != [] {
      InsertLast(e, s[1..]);
      assert s == [s[0]] + s[1..];
    }
  }

  /** Sorting a sorted list leaves it as it is. */
  lemma {:induction false} SortSorted(s: seq<ScoreEntry>)
    requires Sorted(s)
    ensures SortEntries(s) == s
  {
    if s != [] {
      var n := |s| - 1;
      var front := s[..n];
      SortedSplit(front, s[n]);
      assert s == front + [s[n]];
      SortSorted(front);
      InsertLast(s[n], front);
    }
  }

  /** A sorted list ending in `e`: its front is sorted and `e` sorts before none of it. */
  lemma SortedSplit(front: seq<ScoreEntry>, e: ScoreEntry)
    requires Sorted(front + [e])
    ensures Sorted(front)
    ensures forall k :: 0 <= k < |front| ==> !Ahead(e, front[k])
  {
    var s := front + [e];
    forall k | 0 <= k < |front| ensures !Ahead(e, front[k]) {
      assert s[k] == front[k] && s[|front|] == e;
    }
    forall i, j | 0 <= i < j < |front| ensures !Ahead(front[j], front[i]) {
      assert s[i] == front[i] && s[j] == front[j];
    }
  }

  /** Normalising a leaderboard again changes nothing. */
  lemma NormaliseIdempotent(hs: seq<ScoreEntry>, mint: int -> string, now: int)
    requires Leaderboard(hs)
    ensures Normalise(Some(Stored(hs)), mint, now) == hs
  {
    KeptStored(hs, mint, now);
    SortSorted(hs);
  }

  /** The slice keeps the best entries: nothing it drops sorts strictly before anything it keeps. */
  lemma TopKeepsBest(kept: seq<ScoreEntry>)
    ensures var r := Top(kept);
            forall y, k :: y in multiset(kept) - multiset(r) && 0 <= k < |r| ==> !Ahead(y, r[k])
  {
    var sorted := SortEntries(kept);
    var r := Top(kept);
    var tail := sorted[|r|..];
    assert sorted == r + tail;
    assert multiset(kept) - multiset(r) == multiset(tail);
    TailBehind(r, tail);
  }

  /** In a sorted list, nothing past a cut sorts strictly before anything ahead of it. */
  lemma TailBehind(head: seq<ScoreEntry>, tail: seq<ScoreEntry>)
    requires Sorted(head + tail)
    ensures forall y, k :: y in multiset(tail) && 0 <= k < |head| ==> !Ahead(y, head[k])
  {
    forall y, k | y in multiset(tail) && 0 <= k < |head|
      ensures !Ahead(y, head[k])
    {
      var j :| 0 <= j < |tail| && tail[j] == y;
      assert (head + tail)[|head| + j] == y && (head + tail)[k] == head[k];
    }
  }

  /**
   * A fresh entry is among the first `n` after insertion into a sorted list
   * exactly when the list is shorter than `n` or the entry sorts strictly
   * before its `n`-th entry.
   */
  lemma {:induction false} InsertKeeps(e: ScoreEntry, s: seq<ScoreEntry>, n: int)
    requires Sorted(s) && e !in s && 1 <= n
    ensures e in Insert(e, s)[..Min(n, |s| + 1)] <==> |s| < n || Ahead(e, s[n - 1])
  {
    if s == [] {
    } else if Ahead(e, s[0]) {
      assert Insert(e, s)[0] == e;
      if n - 1 < |s| {
        assert !Ahead(s[n - 1], s[0]) || n - 1 == 0;
      }
    } else {
      var r := Insert(e, s);
      var tail := Insert(e, s[1..]);
      assert r == [s[0]] + tail;
      assert s[0] != e;
      if n == 1 {
        assert r[..1] == [s[0]];
      } else {
        InsertKeeps(e, s[1..], n - 1);
        assert r[..Min(n, |s| + 1)] == [s[0]] + tail[..Min(n - 1, |s|)];
        if n - 1 < |s| {
          assert s[1..][n - 2] == s[n - 1];
        }
      }
    }
  }

  /** The entry `recordHighScore` appends for the current score. */
  function Entry(m: Metrics, id: string, now: int): (e: ScoreEntry)
    ensures e.id == id && e.score == m.currentScore && e.level == m.level && e.timestamp == now
  {
    ScoreEntry(id, m.currentScore, m.level, now)
  }

  /** The updated leaderboard after appending an entry and normalising. */
  function Recorded(hs: seq<ScoreEntry>, e: ScoreEntry, mint: int -> string, now: int): (r: seq<ScoreEntry>)
    ensures Leaderboard(r)
  {
    Normalise(Some(Stored(hs + [e])), mint, now)
  }

  /**
   * On a leaderboard, recording is a single stable insertion: the entries
   * keep their order and the new one goes after every entry it does not
   * beat, the list then cut to ten.
   */
  lemma RecordedIsInsertion(hs: seq<ScoreEntry>, e: ScoreEntry, mint: int -> string, now: int)
    requires Leaderboard(hs)
    ensures Recorded(hs, e, mint, now) == Insert(e, hs)[..Min(HIGH_SCORE_LIMIT, |hs| + 1)]
  {
    KeptStored(hs + [e], mint, now);
    var all := hs + [e];
    assert all[..|hs|] == hs;
    SortSorted(hs);
  }

  /**
   * A newly recorded score with a fresh identifier makes the board exactly
   * when the board has fewer than ten entries or the score sorts strictly
   * before the tenth; ties with the tenth lose to it.
   */
  lemma RecordedIffQualifies(hs: seq<ScoreEntry>, e: ScoreEntry, mint: int -> string, now: int)
    requires Leaderboard(hs)
    requires !Listed(hs, e.id)
    ensures Listed(Recorded(hs, e, mint, now), e.id) <==>
            |hs| < HIGH_SCORE_LIMIT || Ahead(e, hs[HIGH_SCORE_LIMIT - 1])
  {
    RecordedIsInsertion(hs, e, mint, now);
    var r := Recorded(hs, e, mint, now);
    var ins := Insert(e, hs);
    assert forall k :: 0 <= k < |hs| ==> hs[k] != e;
    InsertKeeps(e, hs, HIGH_SCORE_LIMIT);
    if Listed(r, e.id) {
      var k :| 0 <= k < |r| && r[k].id == e.id;
      assert r[k] in multiset(ins);
      assert r[k] in multiset(hs) || r[k] == e;
      assert r[k] == e;
      assert e in r;
    }
    if e in r {
      var k :| 0 <= k < |r| && r[k] == e;
      assert r[k].id == e.id;
    }
  }

  /** `recordHighScore`, on a fresh draft. */
  method RecordHighScore(s: Game, id: string, now: int, mint: int -> string) returns (t: Game)
    requires s.Valid()
    ensures fresh(t) && t.Valid()
    ensures t.highScores == Recorded(s.highScores, Entry(s.metrics, id, now), mint, now)
    ensures t.lastScoreId == (if Listed(t.highScores, id) then Some(id) else None)
    ensures FieldsOf(t) == FieldsOf(s).(highScores := t.highScores, lastScoreId := t.lastScoreId)
    ensures SameCells(t.board, s.board)
  {
    var updated := Recorded(s.highScores, Entry(s.metrics, id, now), mint, now);
    t := WithScores(s, updated, if Listed(updated, id) then Some(id) else None);
  }

  /**
   * `createInitialState`: the level-one layout with a full magazine, no
   * input, no animation and the stored leaderboard normalised (`None` when
   * storage is unavailable, empty or unreadable).
   */
  method CreateInitialState(stored: Option<seq<RawEntry>>, mint: int -> string, now: int) returns (g: Game)
    ensures fresh(g) && g.Valid()
    ensures IsLayout(g.board, 1)
    ensures FieldsOf(g) == NewGame(Normalise(stored, mint, now))
  {
    var b, enemies, player, boss := BuildLevelLayout(1);
    g := new Game(b, enemies, Some(player), boss, StatusFlags(false, false, false, false), InitialMetrics,
                  Ammo(MAX_CONCURRENT_SHOTS, 0), NoInput, IdleTransition, 0, [],
                  Normalise(stored, mint, now), None);
  }

  /**
   * The fields of a new game: thirteen enemies, the player at its start,
   * no boss, every flag down, the initial counters, a full magazine, no
   * input, no animation, no events, the given leaderboard and no last entry.
   */
  function NewGame(highScores: seq<ScoreEntry>): Fields {
    Fields(13, Some(Pos(PLAYER_START_ROW, PLAYER_START_COL)), None, StatusFlags(false, false, false, false),
           InitialMetrics, Ammo(MAX_CONCURRENT_SHOTS, 0), NoInput, IdleTransition, 0, [], highScores, None)
  }

  /** The actions the reducer receives; `Unrecognised` is any other action type. */
  datatype Action =
    | Reset
    | PauseToggle
    | QueueMoveLeft
    | QueueMoveRight
    | QueueShot
    | Tick
    | AdvanceLevel
    | PlayerRespawned
    | SetHighScoreName
    | Unrecognised

  /** The reducer's state invariant: a valid game carrying a well-formed leaderboard. */
  ghost predicate SessionValid(g: Game)
    reads g, g.board
  {
    g.Valid() && Leaderboard(g.highScores)
  }

  /** The reset action: a new level-one game that keeps the leaderboard and forgets the last entry. */
  method ResetGame(s: Game, mint: int -> string, now: int) returns (t: Game)
    requires SessionValid(s)
    ensures fresh(t) && SessionValid(t)
    ensures IsLayout(t.board, 1)
    ensures FieldsOf(t) == NewGame(s.highScores)
  {
    t := CreateInitialState(None, mint, now);
    NormaliseIdempotent(s.highScores, mint, now);
    SetScores(t, Normalise(Some(Stored(s.highScores)), mint, now), None);
  }

  /** The pause toggle: only the paused flag flips; the board and every other field are kept. */
  method TogglePause(s: Game) returns (t: Game)
    requires SessionValid(s)
    ensures fresh(t) && SessionValid(t)
    ensures FieldsOf(t) == FieldsOf(s).(status := s.status.(paused := !s.status.paused))
    ensures SameCells(t.board, s.board)
  {
    t := Produce(s);
    t.status := t.status.(paused := !t.status.paused);
  }

  /** Boards with the same cells send the player to the same place. */
  lemma MoveTargetOfSameCells(t: array2<Cell>, s: array2<Cell>, status: StatusFlags, player: Option<Pos>, dir: HDir)
    requires SameCells(t, s)
    ensures MoveTarget(t, status, player, Some(dir)) == MoveTarget(s, status, player, Some(dir))
  {
    if player.Some? && InBounds(player.value.row, player.value.col + Delta(dir)) {
      assert t[player.value.row, player.value.col + Delta(dir)] == s[player.value.row, player.value.col + Delta(dir)];
    }
  }

  /** Boards with the same cells decide the same shot. */
  lemma ShotOfSameCells(t: array2<Cell>, s: array2<Cell>, status: StatusFlags, player: Option<Pos>, ammo: Ammo)
    requires SameCells(t, s)
    ensures PlayerShotOf(t, status, player, ammo) == PlayerShotOf(s, status, player, ammo)
  {
    if player.Some? && InBounds(player.value.row - 1, player.value.col) {
      assert t[player.value.row - 1, player.value.col] == s[player.value.row - 1, player.value.col];
    }
  }

  /**
   * A move action: the step `MoveTarget` allows is taken at once, moving the
   * player's cell, and any queued move is dropped; nothing else changes.
   */
  method QueueMove(s: Game, dir: HDir) returns (t: Game)
    requires SessionValid(s)
    ensures fresh(t) && SessionValid(t)
    ensures var target := MoveTarget(s.board, s.status, s.player, Some(dir));
      FieldsOf(t) == FieldsOf(s).(player := if target.Some? then target else s.player,
                                  queuedInput := s.queuedInput.(move := None)) &&
      (target.Some? ==> MovedFrom(t.board, s.board, s.player.value.row, s.player.value.col,
                                  target.value.row, target.value.col)) &&
      (target.None? ==> SameCells(t.board, s.board))
  {
    t := Produce(s);
    MoveTargetOfSameCells(t.board, s.board, s.status, s.player, dir);
    MoveDraft(t, dir);
  }

  /** The draft side of a move action. */
  method MoveDraft(t: Game, dir: HDir)
    requires SessionValid(t)
    modifies t.board, t`player, t`queuedInput
    ensures SessionValid(t)
    ensures t.queuedInput == old(t.queuedInput).(move := None)
    ensures exists moved :: MoveOutcome(t, Some(dir), moved)
  {
    var moved := ApplyPlayerMove(t, Some(dir));
    t.queuedInput := t.queuedInput.(move := None);
    assert MoveOutcome(t, Some(dir), moved);
  }

  /**
   * The shot action: the shot `PlayerShotOf` decides is resolved at once
   * (a bullet or merged cell above the player, or a point-blank kill), and
   * any queued shot is dropped; nothing else changes.
   */
  method QueueShot(s: Game) returns (t: Game)
    requires SessionValid(s)
    ensures fresh(t) && SessionValid(t)
    ensures var shot := PlayerShotOf(s.board, s.status, s.player, s.ammo);
      FieldsOf(t) == WithSide(FieldsOf(s), AfterPlayerShot(SideOf(s), shot)).(queuedInput := s.queuedInput.(fire := false)) &&
      (shot.Ignored? ==> SameCells(t.board, s.board)) &&
      (!shot.Ignored? ==> ReplacedFrom(t.board, s.board, shot.at.row, shot.at.col, ShotCell(shot)))
  {
    t := Produce(s);
    ShotOfSameCells(t.board, s.board, s.status, s.player, s.ammo);
    ShotDraft(t);
  }

  /** The draft side of the shot action. */
  method ShotDraft(t: Game)
    requires SessionValid(t)
    modifies t.board, t`ammo, t`events, t`metrics, t`enemies, t`boss, t`queuedInput
    ensures SessionValid(t)
    ensures t.queuedInput == old(t.queuedInput).(fire := false)
    ensures exists fired :: FireOutcome(t, fired)
  {
    var fired := ApplyPlayerFire(t);
    t.queuedInput := t.queuedInput.(fire := false);
    assert FireOutcome(t, fired);
  }

  /**
   * The tick action: one engine step, recording the score when the game has
   * just ended. `advanced` is the state the engine step produced; the
   * recording changes its leaderboard and last id and nothing else.
   */
  method TickGame(s: Game, rng: Random, id: string, now: int, mint: int -> string)
    returns (t: Game, ghost advanced: Game)
    requires SessionValid(s)
    modifies rng
    ensures SessionValid(t)
    ensures advanced.highScores == s.highScores && advanced.lastScoreId == s.lastScoreId
    ensures s.transition.mode != Idle ==>
              FieldsOf(advanced) == Animated(FieldsOf(s).(events := [])) &&
              AnimatedFrom(advanced.board, s, s.metrics.level + 1)
    ensures s.transition.mode == Idle && !IsPlayable(s.status) ==> advanced == s
    ensures FieldsOf(t) == FieldsOf(advanced).(highScores := t.highScores, lastScoreId := t.lastScoreId)
    ensures SameCells(t.board, advanced.board)
    ensures !s.status.gameOver && t.status.gameOver ==>
              t.highScores == Recorded(s.highScores, Entry(t.metrics, id, now), mint, now) &&
              (t.lastScoreId == Some(id) <==> Listed(t.highScores, id))
    ensures s.status.gameOver || !t.status.gameOver ==>
              t.highScores == s.highScores && t.lastScoreId == s.lastScoreId
  {
    var next := AdvanceGame(s, rng);
    advanced := next;
    t := RecordIfEnded(next, s.status.gameOver, id, now, mint);
  }

  /** The second half of the tick action: the score is recorded only when this tick ended the game. */
  method RecordIfEnded(next: Game, wasOver: bool, id: string, now: int, mint: int -> string) returns (t: Game)
    requires SessionValid(next)
    ensures SessionValid(t)
    ensures !wasOver && next.status.gameOver ==>
              t.highScores == Recorded(next.highScores, Entry(t.metrics, id, now), mint, now) &&
              (t.lastScoreId == Some(id) <==> Listed(t.highScores, id))
    ensures wasOver || !next.status.gameOver ==> t == next
    ensures FieldsOf(t) == FieldsOf(next).(highScores := t.highScores, lastScoreId := t.lastScoreId)
    ensures SameCells(t.board, next.board)
  {
    if next.status.gameOver && !wasOver {
      t := RecordHighScore(next, id, now, mint);
    } else {
      t := next;
    }
  }

  /**
   * `gameReducer`. Every action keeps the session invariant; the reset keeps
   * the leaderboard; the name-editing action and unknown actions return the
   * state as it is.
   */
  method GameReducer(s: Game, action: Action, rng: Random, id: string, now: int, mint: int -> string)
    returns (t: Game)
    requires SessionValid(s)
    modifies rng
    ensures SessionValid(t)
    ensures action == Reset ==> t.highScores == s.highScores && t.lastScoreId == None
    ensures action != Tick ==> rng.tape == old(rng.tape)
    ensures action !in {Reset, Tick} ==> t.highScores == s.highScores && t.lastScoreId == s.lastScoreId
    ensures action == SetHighScoreName || action == Unrecognised ==> t == s
  {
    match action {
      case Reset => t := ResetGame(s, mint, now);
      case PauseToggle => t := TogglePause(s);
      case QueueMoveLeft => t := QueueMove(s, Left);
      case QueueMoveRight => t := QueueMove(s, Right);
      case QueueShot => t := QueueShot(s);
      case Tick =>
        ghost var advanced;
        t, advanced := TickGame(s, rng, id, now, mint);
      case AdvanceLevel => t := PrepareNextLevel(s);
      case PlayerRespawned => t := RespawnPlayer(s);
      case SetHighScoreName => t := s;
      case Unrecognised => t := s;
    }
  }
}
