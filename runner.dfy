// The terminal runner game of src/wellcode_cli/games/cyberpunk_runner.py,
// shown while metrics are computed: reset, the jump key, the jump arc, the
// per-tick update of power-ups, shield and obstacles, and text centring.
// Every random draw of the source is a parameter of the tick.

module Runner {
  import opened Common

  /** `self.max_jumps`: a double jump. */
  const MaxJumps := 2
  /** `self.jump_power`: the height change of each tick of a jump. */
  const JumpPower: seq<int> := [-2, -1, 0, 1, 1]
  /** The characters of `self.stars`, the background's cells. */
  const Stars: set<char> := {' ', '·', '⋅', '∙'}
  /** Ticks a collected shield lasts. */
  const ShieldTicks := 50
  /** An extra life is granted only below this many lives. */
  const MaxLives := 5
  /** Board size and player column that reset_game sets. */
  const BoardWidth := 30
  const BoardHeight := 6
  const PlayerColumn := 5
  /** `self.colors['reset']`. */
  const ResetCode := "\U{1B}[0m"

  datatype Obstacle = Obstacle(x: int, y: int)
  datatype PowerKind = ShieldUp | Points | ExtraLife
  datatype PowerUp = PowerUp(kind: PowerKind, x: int, y: int)
  /** `self.player_char`: the plain player or the shield glyph. */
  datatype Glyph = PlayerGlyph | ShieldGlyph

  /** One background character drawn at random: a star (one of Stars) or None for a space. */
  predicate StarDraw(d: Option<char>)
  {
    d.Some? ==> d.value in Stars
  }

  function Cell(d: Option<char>): char
  {
    if d.Some? then d.value else ' '
  }

  function Abs(n: int): nat
  {
    if n < 0 then -n else n
  }

  // ---------------------------------------------------------------- _center_text

  function Spaces(n: int): (s: string)
    ensures |s| == (if n > 0 then n else 0)
    ensures forall i :: 0 <= i < |s| ==> s[i] == ' '
  {
    if n <= 0 then "" else Spaces(n - 1) + " "
  }

  /**
   * _center_text: `text` (wrapped in `color` and the reset code when `color`
   * is not empty) between `(width - len(text)) // 2` spaces and the rest.
   * Python's `' ' * n` is empty for n <= 0 and its `//` floors, as Dafny's
   * `/` does for a positive divisor.
   */
  function CenterText(text: string, width: int, color: string): string
  {
    var visible := if color != "" then color + text + ResetCode else text;
    var total := width - |text|;
    var left := total / 2;
    Spaces(left) + visible + Spaces(total - left)
  }

  /**
   * Text no longer than the width is padded to the width: the visible text
   * (the text itself when no colour is given) starts after
   * `(width - len(text)) // 2` spaces and is followed by spaces, the right
   * padding equal to the left one or one longer.
   */
  lemma CenterTextPads(text: string, width: int, color: string)
    requires |text| <= width
    ensures var visible := if color != "" then color + text + ResetCode else text;
      var r := CenterText(text, width, color);
      var left := (width - |text|) / 2;
      |r| == width - |text| + |visible| && 0 <= left
      && r[left..left + |visible|] == visible
      && (forall i :: 0 <= i < left ==> r[i] == ' ')
      && (forall i :: left + |visible| <= i < |r| ==> r[i] == ' ')
      && left <= |r| - left - |visible| <= left + 1
  {
    var visible := if color != "" then color + text + ResetCode else text;
    var total := width - |text|;
    var left := total / 2;
    assert 0 <= left <= total - left <= left + 1;
    assert CenterText(text, width, color) == Spaces(left) + visible + Spaces(total - left);
    Padded(left, visible, total - left);
  }

  lemma Padded(left: nat, visible: string, right: nat)
    ensures var r := Spaces(left) + visible + Spaces(right);
      |r| == left + |visible| + right && r[left..left + |visible|] == visible
      && (forall i :: 0 <= i < left ==> r[i] == ' ')
      && (forall i :: left + |visible| <= i < |r| ==> r[i] == ' ')
  {
    var r := Spaces(left) + visible + Spaces(right);
    assert r[left..left + |visible|] == visible;
    forall i | left + |visible| <= i < |r|
      ensures r[i] == ' '
    {
      assert r[i] == Spaces(right)[i - left - |visible|];
    }
  }

  /** Text longer than the width comes back unpadded. */
  lemma CenterTextLong(text: string, width: int, color: string)
    requires |text| > width
    ensures CenterText(text, width, color) == if color != "" then color + text + ResetCode else text
  {
    var total := width - |text|;
    assert Spaces(total / 2) == "" && Spaces(total - total / 2) == "";
  }

  // ---------------------------------------------------------------- jumping

  /** The jump state: `player_pos`, `jumping`, `jump_count`, `jumps_left`. */
  datatype Jump = Jump(pos: int, jumping: bool, count: int, jumpsLeft: int)

  predicate JumpOk(j: Jump, ground: int)
  {
    JumpBounds(j.pos, j.count, j.jumpsLeft, ground)
  }

  /** At or above the ground, inside the arc, and no more jumps left than MaxJumps. */
  predicate JumpBounds(pos: int, count: int, jumpsLeft: int, ground: int)
  {
    0 <= count <= |JumpPower| && 0 <= jumpsLeft <= MaxJumps && pos <= ground
  }

  /** The space key: a new jump from the start of the arc, if a jump is left. */
  function Press(j: Jump): Jump
  {
    if j.jumpsLeft > 0 then Jump(j.pos, true, 0, j.jumpsLeft - 1) else j
  }

  /** The arc step of _handle_jump: the next height change, or the end of the jump. */
  function Arc(j: Jump): Jump
    requires 0 <= j.count
  {
    if !j.jumping then j
    else if j.count < |JumpPower| then j.(pos := j.pos + JumpPower[j.count], count := j.count + 1)
    else j.(jumping := false, count := 0)
  }

  /**
   * _handle_jump with the ground row `ground` (`height - 2`): the arc step,
   * then on the ground the jumps are restored, and in the air without a jump
   * the player falls one row.
   */
  function HandleJumpStep(j: Jump, ground: int): Jump
    requires 0 <= j.count
  {
    var a := Arc(j);
    if a.pos >= ground then Jump(ground, false, 0, MaxJumps)
    else if !a.jumping then a.(pos := a.pos + 1)
    else a
  }

  /** A press takes a jump only when one is left, so the jumps left stay within 0 and MaxJumps. */
  lemma PressKeepsJumps(j: Jump, ground: int)
    requires JumpOk(j, ground)
    ensures JumpOk(Press(j), ground) && Press(j).pos == j.pos
    ensures Press(j).jumpsLeft == (if j.jumpsLeft > 0 then j.jumpsLeft - 1 else 0)
    ensures Press(j).jumping <==> j.jumping || j.jumpsLeft > 0
  {
  }

  /**
   * _handle_jump keeps the jump state well formed and the player at or above
   * the ground; the jumps are restored only on the ground, and otherwise the
   * jumps left do not change.
   */
  lemma HandleJumpKeeps(j: Jump, ground: int)
    requires JumpOk(j, ground)
    ensures JumpOk(HandleJumpStep(j, ground), ground)
    ensures var r := HandleJumpStep(j, ground);
      r.jumpsLeft == j.jumpsLeft || (r.jumpsLeft == MaxJumps && r.pos == ground && !r.jumping)
  {
  }

  function Iterate(j: Jump, ground: int, n: nat): (r: Jump)
    requires JumpOk(j, ground)
    ensures JumpOk(r, ground)
    decreases n
  {
    if n == 0 then j
    else
      HandleJumpKeeps(j, ground);
      Iterate(HandleJumpStep(j, ground), ground, n - 1)
  }

  /**
   * A single jump from the ground rises three rows, stays in the air for
   * five ticks, is back on the ground at the sixth and has both jumps
   * available again at the seventh.
   */
  lemma {:induction false} SingleJumpLands(ground: int)
    ensures var start := Press(Jump(ground, false, 0, MaxJumps));
      Iterate(start, ground, 2).pos == ground - 3
      && (forall n :: 0 < n < 6 ==> Iterate(start, ground, n).pos < ground)
      && Iterate(start, ground, 6) == Jump(ground, false, 0, MaxJumps - 1)
      && Iterate(start, ground, 7) == Jump(ground, false, 0, MaxJumps)
  {
    var s0 := Press(Jump(ground, false, 0, MaxJumps));
    assert s0 == Jump(ground, true, 0, 1);
    var s1 := Jump(ground - 2, true, 1, 1);
    var s2 := Jump(ground - 3, true, 2, 1);
    var s3 := Jump(ground - 3, true, 3, 1);
    var s4 := Jump(ground - 2, true, 4, 1);
    var s5 := Jump(ground - 1, true, 5, 1);
    var s6 := Jump(ground, false, 0, 1);
    var s7 := Jump(ground, false, 0, MaxJumps);
    assert HandleJumpStep(s0, ground) == s1;
    assert HandleJumpStep(s1, ground) == s2;
    assert HandleJumpStep(s2, ground) == s3;
    assert HandleJumpStep(s3, ground) == s4;
    assert HandleJumpStep(s4, ground) == s5;
    assert HandleJumpStep(s5, ground) == s6;
    assert HandleJumpStep(s6, ground) == s7;
    assert Iterate(s6, ground, 1) == s7 by { assert Iterate(s7, ground, 0) == s7; }
    assert Iterate(s5, ground, 2) == s7;
    assert Iterate(s4, ground, 3) == s7;
    assert Iterate(s3, ground, 4) == s7;
    assert Iterate(s2, ground, 5) == s7;
    assert Iterate(s1, ground, 6) == s7;
    assert Iterate(s0, ground, 1) == s1;
    assert Iterate(s0, ground, 2) == s2 by { assert Iterate(s1, ground, 1) == s2; }
    assert Iterate(s0, ground, 3) == s3 by { assert Iterate(s1, ground, 2) == s3 by { assert Iterate(s2, ground, 1) == s3; } }
    assert Iterate(s0, ground, 4) == s4 by {
      assert Iterate(s1, ground, 3) == s4 by { assert Iterate(s2, ground, 2) == s4 by { assert Iterate(s3, ground, 1) == s4; } }
    }
    assert Iterate(s0, ground, 5) == s5 by {
      assert Iterate(s1, ground, 4) == s5 by {
        assert Iterate(s2, ground, 3) == s5 by { assert Iterate(s3, ground, 2) == s5 by { assert Iterate(s4, ground, 1) == s5; } }
      }
    }
    assert Iterate(s0, ground, 6) == s6 by {
      assert Iterate(s1, ground, 5) == s6 by {
        assert Iterate(s2, ground, 4) == s6 by {
          assert Iterate(s3, ground, 3) == s6 by { assert Iterate(s4, ground, 2) == s6 by { assert Iterate(s5, ground, 1) == s6; } }
        }
      }
    }
    forall n | 0 < n < 6
      ensures Iterate(s0, ground, n).pos < ground
    {
      if n == 1 {
      } else if n == 2 {
      } else if n == 3 {
      } else if n == 4 {
      } else {
        assert n == 5;
      }
    }
  }

  // ---------------------------------------------------------------- power-ups and the shield

  /** The fields power-ups and collisions change: score, lives, shield and the player glyph. */
  datatype Vitals = Vitals(score: int, lives: int, activeShield: bool, shieldDuration: int, glyph: Glyph)

  /** _collect_power_up. */
  function Collect(v: Vitals, kind: PowerKind): Vitals
  {
    match kind
    case ShieldUp => v.(activeShield := true, shieldDuration := ShieldTicks, glyph := ShieldGlyph)
    case Points => v.(score := v.score + 50)
    case ExtraLife => if v.lives < MaxLives then v.(lives := v.lives + 1) else v
  }

  /**
   * A shield is switched on for 50 ticks, points add 50, an extra life is
   * granted only below five lives; nothing else changes, and no power-up
   * lowers the score or the lives or lifts the lives above five.
   */
  lemma CollectEffect(v: Vitals, kind: PowerKind)
    ensures var r := Collect(v, kind);
      r.score >= v.score && r.lives >= v.lives
      && (v.lives <= MaxLives ==> r.lives <= MaxLives)
      && (kind == ShieldUp ==> r == v.(activeShield := true, shieldDuration := ShieldTicks, glyph := ShieldGlyph))
      && (kind == Points ==> r == v.(score := v.score + 50))
      && (kind == ExtraLife ==> r == v.(lives := if v.lives < MaxLives then v.lives + 1 else v.lives))
  {
  }

  /** The shield bookkeeping every tick keeps: at most 50 ticks left, and some left while the shield is on. */
  predicate ShieldOk(v: Vitals)
  {
    ShieldBounds(v.activeShield, v.shieldDuration)
  }

  predicate ShieldBounds(active: bool, duration: int)
  {
    0 <= duration <= ShieldTicks && (active ==> duration > 0)
  }

  /** The shield part of _update_game: one tick off the duration, and the shield off once it runs out. */
  function TickShield(v: Vitals): Vitals
  {
    if !v.activeShield then v
    else if v.shieldDuration - 1 <= 0 then v.(shieldDuration := v.shieldDuration - 1, activeShield := false, glyph := PlayerGlyph)
    else v.(shieldDuration := v.shieldDuration - 1)
  }

  /** A tick keeps the shield bookkeeping and changes neither score nor lives. */
  lemma TickShieldOk(v: Vitals)
    requires ShieldOk(v)
    ensures ShieldOk(TickShield(v)) && TickShield(v).score == v.score && TickShield(v).lives == v.lives
  {
  }

  function TickShieldN(v: Vitals, n: nat): Vitals
    decreases n
  {
    if n == 0 then v else TickShieldN(TickShield(v), n - 1)
  }

  /**
   * A shield with `d` ticks left stays on for exactly `d - 1` more ticks:
   * after n ticks (n <= d) it has d - n left and is on exactly when n < d.
   */
  lemma {:induction false} ShieldRunsOut(v: Vitals, n: nat)
    requires v.activeShield && v.shieldDuration >= 1 && n <= v.shieldDuration
    ensures var r := TickShieldN(v, n);
      r.shieldDuration == v.shieldDuration - n && (r.activeShield <==> n < v.shieldDuration)
      && r.score == v.score && r.lives == v.lives
    decreases n
  {
    if n > 0 {
      var w := TickShield(v);
      if v.shieldDuration == 1 {
        assert !w.activeShield && w.shieldDuration == 0;
        assert n == 1;
        assert TickShieldN(w, 0) == w;
      } else {
        ShieldRunsOut(w, n - 1);
      }
    }
  }

  /** A collected shield is on for the tick it was collected in and the 48 after it, and off after 49. */
  lemma ShieldLasts(v: Vitals)
    ensures var s := TickShield(Collect(v, ShieldUp));
      TickShieldN(s, ShieldTicks - 2).activeShield && !TickShieldN(s, ShieldTicks - 1).activeShield
  {
    var s := TickShield(Collect(v, ShieldUp));
    assert s.activeShield && s.shieldDuration == ShieldTicks - 1;
    ShieldRunsOut(s, ShieldTicks - 2);
    ShieldRunsOut(s, ShieldTicks - 1);
  }

  /** The power-up hitbox: within one column and one row of the player. */
  predicate Near(p: PowerUp, px: int, py: int)
  {
    Abs(p.x - px) <= 1 && Abs(p.y - py) <= 1
  }

  datatype PowerPass = PowerPass(kept: seq<PowerUp>, vitals: Vitals)

  /**
   * _update_power_ups: every power-up moves one column left; one in reach is
   * collected and removed, one past the left edge is removed, the rest kept
   * in order.
   */
  function PowerUpsPass(ps: seq<PowerUp>, v: Vitals, px: int, py: int): PowerPass
  {
    if ps == [] then PowerPass([], v)
    else
      var r := PowerUpsPass(ps[..|ps| - 1], v, px, py);
      var p := ps[|ps| - 1].(x := ps[|ps| - 1].x - 1);
      if Near(p, px, py) then PowerPass(r.kept, Collect(r.vitals, p.kind))
      else if p.x < 0 then r
      else PowerPass(r.kept + [p], r.vitals)
  }

  /**
   * The kept power-ups are exactly the moved ones that are out of reach and
   * not past the left edge, and there are never more of them than before.
   */
  lemma {:induction false} PowerUpsKept(ps: seq<PowerUp>, v: Vitals, px: int, py: int, q: PowerUp)
    ensures var r := PowerUpsPass(ps, v, px, py);
      (q in r.kept <==> exists i :: 0 <= i < |ps| && q == ps[i].(x := ps[i].x - 1) && !Near(q, px, py) && q.x >= 0)
      && |r.kept| <= |ps|
    decreases |ps|
  {
    if ps != [] {
      var init := ps[..|ps| - 1];
      PowerUpsKept(init, v, px, py, q);
      var r := PowerUpsPass(init, v, px, py);
      var p := ps[|ps| - 1].(x := ps[|ps| - 1].x - 1);
      if q in r.kept {
        var i :| 0 <= i < |init| && q == init[i].(x := init[i].x - 1) && !Near(q, px, py) && q.x >= 0;
        assert q == ps[i].(x := ps[i].x - 1);
      }
      if exists i :: 0 <= i < |ps| && q == ps[i].(x := ps[i].x - 1) && !Near(q, px, py) && q.x >= 0 {
        var i :| 0 <= i < |ps| && q == ps[i].(x := ps[i].x - 1) && !Near(q, px, py) && q.x >= 0;
        if i < |init| {
          assert q == init[i].(x := init[i].x - 1);
        }
      }
    }
  }

  /** Collecting never lowers the score or the lives, nor lifts the lives above five, and keeps the shield bookkeeping. */
  lemma {:induction false} PowerUpsVitals(ps: seq<PowerUp>, v: Vitals, px: int, py: int)
    ensures var w := PowerUpsPass(ps, v, px, py).vitals;
      w.score >= v.score && w.lives >= v.lives && (v.lives <= MaxLives ==> w.lives <= MaxLives)
      && (ShieldOk(v) ==> ShieldOk(w))
    decreases |ps|
  {
    if ps != [] {
      var init := ps[..|ps| - 1];
      PowerUpsVitals(init, v, px, py);
      var p := ps[|ps| - 1].(x := ps[|ps| - 1].x - 1);
      CollectEffect(PowerUpsPass(init, v, px, py).vitals, p.kind);
    }
  }

  /** What _spawn_power_up draws: the kind and the row (random.randint(1, height - 3)). */
  datatype PowerDraw = PowerDraw(kind: PowerKind, y: int)

  // ---------------------------------------------------------------- obstacles

  /** Every obstacle one column left. */
  function Shift(obs: seq<Obstacle>): (r: seq<Obstacle>)
    ensures |r| == |obs| && forall i :: 0 <= i < |obs| ==> r[i] == Obstacle(obs[i].x - 1, obs[i].y)
  {
    seq(|obs|, i requires 0 <= i < |obs| => Obstacle(obs[i].x - 1, obs[i].y))
  }

  /** The obstacles that have just passed the player, in column `px - 1`. */
  function PassedCount(obs: seq<Obstacle>, px: int): nat
  {
    if obs == [] then 0
    else PassedCount(obs[..|obs| - 1], px) + (if obs[|obs| - 1].x == px - 1 then 1 else 0)
  }

  /** `[obs for obs in self.obstacles if obs[0] > 0]`. */
  function OnScreen(obs: seq<Obstacle>): seq<Obstacle>
  {
    if obs == [] then []
    else OnScreen(obs[..|obs| - 1]) + (if obs[|obs| - 1].x > 0 then [obs[|obs| - 1]] else [])
  }

  /** A new obstacle at the right edge on the ground row, when the draw says so and fewer than two exist. */
  function SpawnObstacle(obs: seq<Obstacle>, spawn: bool, width: int, height: int): seq<Obstacle>
  {
    if spawn && |obs| < 2 then obs + [Obstacle(width - 1, height - 2)] else obs
  }

  /** The filter keeps exactly the obstacles right of column 0, in order, and never more than it was given. */
  lemma {:induction false} OnScreenIs(obs: seq<Obstacle>, o: Obstacle)
    ensures (o in OnScreen(obs) <==> o in obs && o.x > 0) && |OnScreen(obs)| <= |obs|
    decreases |obs|
  {
    if obs != [] {
      var init := obs[..|obs| - 1];
      OnScreenIs(init, o);
      assert obs == init + [obs[|obs| - 1]];
    }
  }

  /** Obstacles only spawn below two, so a tick never leaves more than two, and all are right of column 0. */
  lemma ObstaclesBounded(obs: seq<Obstacle>, spawn: bool, width: int, height: int)
    requires |obs| <= 2 && width > 1
    ensures var r := SpawnObstacle(OnScreen(Shift(obs)), spawn, width, height);
      |r| <= 2 && forall i :: 0 <= i < |r| ==> r[i].x > 0
  {
    var s := OnScreen(Shift(obs));
    var r := SpawnObstacle(s, spawn, width, height);
    forall i | 0 <= i < |s|
      ensures s[i].x > 0
    {
      OnScreenIs(Shift(obs), s[i]);
    }
    if |s| > 0 {
      OnScreenIs(Shift(obs), s[0]);
    }
    assert |s| <= |obs| by {
      if |s| > 0 {
        OnScreenIs(Shift(obs), s[0]);
      }
    }
  }

  /** The collision test of _update_game: `abs(dx) < 1 and abs(dy) < 1`. */
  predicate Hits(o: Obstacle, px: int, py: int)
  {
    Abs(o.x - px) < 1 && Abs(o.y - py) < 1
  }

  predicate Collides(obs: seq<Obstacle>, px: int, py: int)
  {
    exists i :: 0 <= i < |obs| && Hits(obs[i], px, py)
  }

  /** On integer cells the test is the player's own cell. */
  lemma HitsIsSameCell(o: Obstacle, px: int, py: int)
    ensures Hits(o, px, py) <==> o.x == px && o.y == py
  {
  }

  /**
   * The collision check: an unshielded player touching an obstacle loses
   * exactly one life however many obstacles it touches, and the game is over
   * once no life is left; a shielded player loses nothing.
   */
  function Collision(v: Vitals, gameOver: bool, obs: seq<Obstacle>, px: int, py: int): (r: (Vitals, bool))
    ensures r.0.lives == v.lives - (if !v.activeShield && Collides(obs, px, py) then 1 else 0)
    ensures r.0 == v.(lives := r.0.lives)
    ensures r.1 <==> gameOver || (!v.activeShield && Collides(obs, px, py) && v.lives - 1 <= 0)
  {
    if !v.activeShield && Collides(obs, px, py) then (v.(lives := v.lives - 1), gameOver || v.lives - 1 <= 0) else (v, gameOver)
  }

  // ---------------------------------------------------------------- the background

  /** _update_background: every row shifted one column left with one new character at the right. */
  function Scroll(bg: seq<seq<char>>, column: seq<Option<char>>): (r: seq<seq<char>>)
    requires |column| == |bg|
    ensures |r| == |bg|
    ensures forall y :: 0 <= y < |bg| ==> r[y] == (if bg[y] == [] then [] else bg[y][1..]) + [Cell(column[y])]
  {
    seq(|bg|, y requires 0 <= y < |bg| => (if bg[y] == [] then [] else bg[y][1..]) + [Cell(column[y])])
  }

  predicate SkyOk(bg: seq<seq<char>>, width: int)
  {
    forall y :: 0 <= y < |bg| ==> |bg[y]| == width && forall x :: 0 <= x < |bg[y]| ==> bg[y][x] in Stars
  }

  /** Scrolling keeps the rows' widths and draws only stars and spaces. */
  lemma ScrollKeepsSky(bg: seq<seq<char>>, column: seq<Option<char>>, width: int)
    requires |column| == |bg| && width > 0 && SkyOk(bg, width)
    requires forall y :: 0 <= y < |column| ==> StarDraw(column[y])
    ensures SkyOk(Scroll(bg, column), width)
  {
    var r := Scroll(bg, column);
    forall y | 0 <= y < |bg|
      ensures |r[y]| == width && forall x :: 0 <= x < |r[y]| ==> r[y][x] in Stars
    {
      assert r[y] == bg[y][1..] + [Cell(column[y])];
      forall x | 0 <= x < |r[y]|
        ensures r[y][x] in Stars
      {
        if x < width - 1 {
          assert r[y][x] == bg[y][x + 1];
        } else {
          assert r[y][x] == Cell(column[y]);
        }
      }
    }
  }

  /** _init_background: `height - 1` rows of `width` random cells. */
  function Sky(draws: seq<seq<Option<char>>>): (r: seq<seq<char>>)
    ensures |r| == |draws|
    ensures forall y :: 0 <= y < |draws| ==>
      |r[y]| == |draws[y]| && (forall x :: 0 <= x < |draws[y]| ==> r[y][x] == Cell(draws[y][x]))
  {
    seq(|draws|, y requires 0 <= y < |draws| => seq(|draws[y]|, x requires 0 <= x < |draws[y]| => Cell(draws[y][x])))
  }

  predicate SkyDraws(draws: seq<seq<Option<char>>>, rows: int, width: int)
  {
    |draws| == rows && forall y :: 0 <= y < |draws| ==> |draws[y]| == width && forall x :: 0 <= x < width ==> StarDraw(draws[y][x])
  }

  lemma SkyIsOk(draws: seq<seq<Option<char>>>, rows: int, width: int)
    requires SkyDraws(draws, rows, width)
    ensures |Sky(draws)| == rows && SkyOk(Sky(draws), width)
  {
  }

  /** The random draws of one tick of _update_game. */
  datatype Draws = Draws(column: seq<Option<char>>, powerUp: Option<PowerDraw>, obstacle: bool)

  /** The fields _update_game changes besides the background: power-ups, obstacles, the vitals and game_over. */
  datatype Play = Play(powerUps: seq<PowerUp>, obstacles: seq<Obstacle>, vitals: Vitals, gameOver: bool)

  /**
   * _update_game on those fields, with the player at (px, py): power-ups
   * moved and collected, one spawned if drawn, the shield tick, obstacles
   * moved with ten points for each one just passed, filtered and spawned,
   * and the collision check on the new obstacles.
   */
  function PlayTick(p: Play, px: int, py: int, width: int, height: int, d: Draws): Play
  {
    ObstaclesTick(PowerUpsTick(p, px, py, width, d.powerUp), px, py, width, height, d.obstacle)
  }

  /** The power-up and shield half of the tick. */
  function PowerUpsTick(p: Play, px: int, py: int, width: int, draw: Option<PowerDraw>): Play
  {
    var pass := PowerUpsPass(p.powerUps, p.vitals, px, py);
    var spawned := pass.kept + (if draw.Some? then [PowerUp(draw.value.kind, width - 1, draw.value.y)] else []);
    p.(powerUps := spawned, vitals := TickShield(pass.vitals))
  }

  /** The obstacle half of the tick. */
  function ObstaclesTick(p: Play, px: int, py: int, width: int, height: int, spawn: bool): Play
  {
    var shifted := Shift(p.obstacles);
    var obs := SpawnObstacle(OnScreen(shifted), spawn, width, height);
    var c := Collision(p.vitals.(score := p.vitals.score + 10 * PassedCount(shifted, px)), p.gameOver, obs, px, py);
    p.(obstacles := obs, vitals := c.0, gameOver := c.1)
  }

  /**
   * What the tick keeps on those fields: at most two obstacles, at most five
   * lives, the shield bookkeeping, and every power-up on a row randint can
   * draw.
   */
  predicate PlayBounds(ps: seq<PowerUp>, obs: seq<Obstacle>, lives: int, active: bool, duration: int, height: int)
  {
    |obs| <= 2 && lives <= MaxLives && ShieldBounds(active, duration)
    && forall i :: 0 <= i < |ps| ==> 1 <= ps[i].y <= height - 3
  }

  predicate PlayOk(p: Play, height: int)
  {
    PlayBounds(p.powerUps, p.obstacles, p.vitals.lives, p.vitals.activeShield, p.vitals.shieldDuration, height)
  }

  /** The tick keeps those bounds and never lowers the score. */
  lemma PlayTickKeeps(p: Play, px: int, py: int, width: int, height: int, d: Draws)
    requires PlayOk(p, height) && width > 1
    requires d.powerUp.Some? ==> 1 <= d.powerUp.value.y <= height - 3
    ensures PlayOk(PlayTick(p, px, py, width, height, d), height)
    ensures PlayTick(p, px, py, width, height, d).vitals.score >= p.vitals.score
  {
    var pass := PowerUpsPass(p.powerUps, p.vitals, px, py);
    PowerUpsVitals(p.powerUps, p.vitals, px, py);
    TickShieldOk(pass.vitals);
    ObstaclesBounded(p.obstacles, d.obstacle, width, height);
    var q := PowerUpsTick(p, px, py, width, d.powerUp);
    forall i | 0 <= i < |pass.kept|
      ensures 1 <= pass.kept[i].y <= height - 3
    {
      PowerUpsKept(p.powerUps, p.vitals, px, py, pass.kept[i]);
    }
    assert PlayOk(q, height);
  }

  // ---------------------------------------------------------------- the game object

  class CyberpunkRunner {
    var width: int
    var height: int
    var playerPos: int
    var playerX: int
    var obstacles: seq<Obstacle>
    var score: int
    var gameOver: bool
    var jumping: bool
    var jumpCount: int
    var lives: int
    var powerUps: seq<PowerUp>
    var activeShield: bool
    var shieldDuration: int
    var jumpsLeft: int
    var playerChar: Glyph
    var background: seq<seq<char>>
    var running: bool

    function JumpState(): Jump
      reads this
    {
      Jump(playerPos, jumping, jumpCount, jumpsLeft)
    }

    function VitalsState(): Vitals
      reads this
    {
      Vitals(score, lives, activeShield, shieldDuration, playerChar)
    }

    /** What every tick keeps: the board reset_game sets up and the bounds the rules maintain. */
    ghost predicate Valid()
      reads this
    {
      width == BoardWidth && height == BoardHeight && playerX == PlayerColumn
      && JumpBounds(playerPos, jumpCount, jumpsLeft, height - 2)
      && PlayBounds(powerUps, obstacles, lives, activeShield, shieldDuration, height)
      && |background| == height - 1 && SkyOk(background, width)
    }

    /** `__init__` then reset_game; the width and height passed in are overwritten by reset_game. */
    constructor (w: int, h: int, sky: seq<seq<Option<char>>>)
      requires SkyDraws(sky, BoardHeight - 1, BoardWidth)
      ensures Valid() && running && score == 0 && lives == 3 && playerChar == PlayerGlyph
      ensures obstacles == [] && powerUps == [] && !gameOver && jumpsLeft == MaxJumps
    {
      width := w;
      height := h;
      running := true;
      score := 0;
      jumpsLeft := MaxJumps;
      playerChar := PlayerGlyph;
      new;
      ResetGame(sky);
    }

    /**
     * reset_game: a 30 by 6 board, the player on the ground row in column 5,
     * no obstacles or power-ups, score 0, three lives, no shield, both jumps
     * available, and a fresh background. The player glyph is left as it was.
     */
    method ResetGame(sky: seq<seq<Option<char>>>)
      requires SkyDraws(sky, BoardHeight - 1, BoardWidth)
      modifies this`width, this`height, this`playerPos, this`playerX, this`obstacles, this`score, this`gameOver,
        this`jumping, this`jumpCount, this`lives, this`powerUps, this`activeShield, this`shieldDuration,
        this`jumpsLeft, this`background
      ensures Valid()
      ensures width == BoardWidth && height == BoardHeight && playerPos == BoardHeight - 2 && playerX == PlayerColumn
      ensures obstacles == [] && score == 0 && !gameOver && !jumping && jumpCount == 0 && lives == 3
      ensures powerUps == [] && !activeShield && shieldDuration == 0 && jumpsLeft == MaxJumps
      ensures background == Sky(sky)
    {
      ResetBoard();
      ResetPlay();
      InitBackground(sky);
      SkyIsOk(sky, BoardHeight - 1, BoardWidth);
    }

    /** The board part of reset_game. */
    method ResetBoard()
      modifies this`width, this`height, this`playerPos, this`playerX, this`obstacles, this`powerUps
      ensures width == BoardWidth && height == BoardHeight && playerPos == BoardHeight - 2 && playerX == PlayerColumn
      ensures obstacles == [] && powerUps == []
    {
      width := BoardWidth;
      height := BoardHeight;
      playerPos := height - 2;
      playerX := PlayerColumn;
      obstacles := [];
      powerUps := [];
    }

    /** The play part of reset_game: score, lives, jump and shield. */
    method ResetPlay()
      modifies this`score, this`gameOver, this`jumping, this`jumpCount, this`lives, this`activeShield,
        this`shieldDuration, this`jumpsLeft
      ensures score == 0 && !gameOver && !jumping && jumpCount == 0 && lives == 3
      ensures !activeShield && shieldDuration == 0 && jumpsLeft == MaxJumps
    {
      score := 0;
      gameOver := false;
      jumping := false;
      jumpCount := 0;
      lives := 3;
      activeShield := false;
      shieldDuration := 0;
      jumpsLeft := MaxJumps;
    }

    /** _init_background: one row per line above the ground, one random cell per column. */
    method InitBackground(sky: seq<seq<Option<char>>>)
      requires |sky| == height - 1 && forall y :: 0 <= y < |sky| ==> |sky[y]| == width
      modifies this`background
      ensures background == Sky(sky)
    {
      background := [];
      var y := 0;
      while y < height - 1
        invariant 0 <= y <= height - 1 && |Sky(sky)| == |sky|
        invariant background == Sky(sky)[..y]
      {
        assert |sky[y]| == width && |Sky(sky)[y]| == width;
        var line: seq<char> := [];
        var x := 0;
        while x < width
          invariant 0 <= x <= width
          invariant line == Sky(sky)[y][..x]
        {
          line := line + [Cell(sky[y][x])];
          x := x + 1;
        }
        assert line == Sky(sky)[y];
        assert Sky(sky)[..y + 1] == Sky(sky)[..y] + [Sky(sky)[y]];
        background := background + [line];
        y := y + 1;
      }
      assert Sky(sky)[..y] == Sky(sky);
    }

    /** The space key of the game loop: a jump starts from the top of the arc only when one is left. */
    method PressJump()
      modifies this`jumping, this`jumpCount, this`jumpsLeft
      ensures JumpState() == Press(old(JumpState()))
    {
      if jumpsLeft > 0 {
        jumping := true;
        jumpCount := 0;
        jumpsLeft := jumpsLeft - 1;
      }
    }

    /** _handle_jump. */
    method HandleJump()
      requires 0 <= jumpCount
      modifies this`playerPos, this`jumping, this`jumpCount, this`jumpsLeft
      ensures JumpState() == HandleJumpStep(old(JumpState()), height - 2)
    {
      if jumping {
        if jumpCount < |JumpPower| {
          playerPos := playerPos + JumpPower[jumpCount];
          jumpCount := jumpCount + 1;
        } else {
          jumping := false;
          jumpCount := 0;
        }
      }
      if playerPos >= height - 2 {
        playerPos := height - 2;
        jumpsLeft := MaxJumps;
        jumping := false;
        jumpCount := 0;
      } else if !jumping {
        playerPos := playerPos + 1;
      }
    }

    /** _collect_power_up. */
    method CollectPowerUp(kind: PowerKind)
      modifies this`score, this`lives, this`activeShield, this`shieldDuration, this`playerChar
      ensures VitalsState() == Collect(old(VitalsState()), kind)
    {
      if kind == ShieldUp {
        activeShield := true;
        shieldDuration := ShieldTicks;
        playerChar := ShieldGlyph;
      } else if kind == Points {
        score := score + 50;
      } else if kind == ExtraLife {
        if lives < MaxLives {
          lives := lives + 1;
        }
      }
    }

    /** _update_power_ups: one visit per power-up of the list as it was before the loop. */
    method UpdatePowerUps()
      modifies this`powerUps, this`score, this`lives, this`activeShield, this`shieldDuration, this`playerChar
      ensures PowerPass(powerUps, VitalsState()) == PowerUpsPass(old(powerUps), old(VitalsState()), playerX, playerPos)
    {
      var ps := powerUps;
      var kept: seq<PowerUp> := [];
      var i := 0;
      while i < |ps|
        invariant 0 <= i <= |ps|
        invariant PowerPass(kept, VitalsState()) == PowerUpsPass(ps[..i], old(VitalsState()), playerX, playerPos)
      {
        assert ps[..i + 1][..i] == ps[..i];
        var p := ps[i].(x := ps[i].x - 1);
        if Abs(p.x - playerX) <= 1 && Abs(p.y - playerPos) <= 1 {
          CollectPowerUp(p.kind);
        } else if p.x < 0 {
        } else {
          kept := kept + [p];
        }
        i := i + 1;
      }
      assert ps[..i] == ps;
      powerUps := kept;
    }

    /** _spawn_power_up: the drawn power-up at the right edge, if one was drawn. */
    method SpawnPowerUp(draw: Option<PowerDraw>)
      modifies this`powerUps
      ensures powerUps == old(powerUps) + (if draw.Some? then [PowerUp(draw.value.kind, width - 1, draw.value.y)] else [])
    {
      if draw.Some? {
        powerUps := powerUps + [PowerUp(draw.value.kind, width - 1, draw.value.y)];
      }
    }

    /** _update_background. */
    method UpdateBackground(column: seq<Option<char>>)
      requires |column| == |background|
      modifies this`background
      ensures background == Scroll(old(background), column)
    {
      var y := 0;
      while y < |background|
        invariant 0 <= y <= |background| == |old(background)|
        invariant background[..y] == Scroll(old(background), column)[..y]
        invariant background[y..] == old(background)[y..]
      {
        var row := background[y];
        assert row == old(background)[y];
        background := background[y := (if row == [] then [] else row[1..]) + [Cell(column[y])]];
        y := y + 1;
      }
      assert background == background[..y];
    }

    /** The shield part of _update_game. */
    method UpdateShield()
      modifies this`activeShield, this`shieldDuration, this`playerChar
      ensures VitalsState() == TickShield(old(VitalsState()))
    {
      if activeShield {
        shieldDuration := shieldDuration - 1;
        if shieldDuration <= 0 {
          activeShield := false;
          playerChar := PlayerGlyph;
        }
      }
    }

    /** The obstacle filter and spawn of _update_game. */
    method CleanAndSpawnObstacles(spawn: bool)
      modifies this`obstacles
      ensures obstacles == SpawnObstacle(OnScreen(old(obstacles)), spawn, width, height)
    {
      obstacles := OnScreen(obstacles);
      if spawn && |obstacles| < 2 {
        obstacles := obstacles + [Obstacle(width - 1, height - 2)];
      }
    }

    /** The first loop over obstacles: each one column left, ten points per obstacle just passed. */
    method ShiftObstacles()
      modifies this`obstacles, this`score
      ensures obstacles == Shift(old(obstacles))
      ensures score == old(score) + 10 * PassedCount(obstacles, playerX)
    {
      var obs := obstacles;
      var moved: seq<Obstacle> := [];
      var i := 0;
      while i < |obs|
        invariant 0 <= i <= |obs|
        invariant moved == Shift(obs)[..i]
        invariant score == old(score) + 10 * PassedCount(moved, playerX)
      {
        var o := Obstacle(obs[i].x - 1, obs[i].y);
        assert (moved + [o])[..|moved|] == moved;
        moved := moved + [o];
        if o.x == playerX - 1 {
          score := score + 10;
        }
        i := i + 1;
      }
      obstacles := moved;
    }

    /** The collision loop: the first obstacle touching an unshielded player costs one life and ends the loop. */
    method CheckCollisions()
      modifies this`lives, this`gameOver
      ensures (VitalsState(), gameOver) == Collision(old(VitalsState()), old(gameOver), obstacles, playerX, playerPos)
    {
      if !activeShield {
        var i := 0;
        while i < |obstacles|
          invariant 0 <= i <= |obstacles|
          invariant forall j :: 0 <= j < i ==> !Hits(obstacles[j], playerX, playerPos)
        {
          if Abs(obstacles[i].x - playerX) < 1 && Abs(obstacles[i].y - playerPos) < 1 {
            lives := lives - 1;
            if lives <= 0 {
              gameOver := true;
            }
            return;
          }
          i := i + 1;
        }
      }
    }

    function PlayState(): Play
      reads this
    {
      Play(powerUps, obstacles, VitalsState(), gameOver)
    }

    /** _update_game, in the source's order. */
    method UpdateGame(d: Draws)
      requires |d.column| == |background|
      modifies this`background, this`powerUps, this`score, this`lives, this`activeShield, this`shieldDuration,
        this`playerChar, this`obstacles, this`gameOver
      ensures background == Scroll(old(background), d.column)
      ensures PlayState() == PlayTick(old(PlayState()), playerX, playerPos, width, height, d)
    {
      UpdateBackground(d.column);
      PowerUpsHalf(d.powerUp);
      ObstaclesHalf(d.obstacle);
    }

    method PowerUpsHalf(draw: Option<PowerDraw>)
      modifies this`powerUps, this`score, this`lives, this`activeShield, this`shieldDuration, this`playerChar
      ensures PlayState() == PowerUpsTick(old(PlayState()), playerX, playerPos, width, draw)
    {
      UpdatePowerUps();
      SpawnPowerUp(draw);
      UpdateShield();
    }

    method ObstaclesHalf(spawn: bool)
      modifies this`obstacles, this`score, this`lives, this`gameOver
      ensures PlayState() == ObstaclesTick(old(PlayState()), playerX, playerPos, width, height, spawn)
    {
      ShiftObstacles();
      CleanAndSpawnObstacles(spawn);
      CheckCollisions();
    }

    /**
     * One round of the game loop in `start`: after the game is over only 'r'
     * (reset) and 'q' (quit) do anything; otherwise the space key jumps, 'q'
     * quits before the update, and the tick runs _update_game then
     * _handle_jump. Returns whether the loop stops.
     */
    method Round(key: Option<char>, d: Draws, sky: seq<seq<Option<char>>>) returns (quit: bool)
      requires Valid() && SkyDraws(sky, BoardHeight - 1, BoardWidth)
      requires |d.column| == BoardHeight - 1 && forall y :: 0 <= y < |d.column| ==> StarDraw(d.column[y])
      requires d.powerUp.Some? ==> 1 <= d.powerUp.value.y <= BoardHeight - 3
      modifies this
      ensures Valid()
      ensures quit <==> key == Some('q')
      ensures old(gameOver) && key != Some('r') ==> unchanged(this)
      ensures !old(gameOver) && quit ==> unchanged(this)
      ensures old(gameOver) && key == Some('r') ==>
        !gameOver && score == 0 && lives == 3 && obstacles == [] && powerUps == [] && background == Sky(sky)
        && width == BoardWidth && height == BoardHeight && playerPos == BoardHeight - 2
        && !jumping && jumpCount == 0 && jumpsLeft == MaxJumps && !activeShield && shieldDuration == 0
      ensures !old(gameOver) && !quit ==>
        background == Scroll(old(background), d.column)
        && PlayState() == PlayTick(old(PlayState()), playerX, old(playerPos), width, height, d)
        && JumpState() == HandleJumpStep(if key == Some(' ') then Press(old(JumpState())) else old(JumpState()), height - 2)
      ensures !old(gameOver) && !quit ==> score >= old(score)
    {
      quit := false;
      if gameOver {
        if key == Some('r') {
          ResetGame(sky);
        } else if key == Some('q') {
          quit := true;
        }
        return;
      }
      if key == Some(' ') {
        PressKeepsJumps(JumpState(), height - 2);
        PressJump();
      } else if key == Some('q') {
        quit := true;
        return;
      }
      PlayRound(d);
    }

    /** A round while the game is on, after the key: _update_game then _handle_jump. */
    method PlayRound(d: Draws)
      requires Valid()
      requires |d.column| == BoardHeight - 1 && forall y :: 0 <= y < |d.column| ==> StarDraw(d.column[y])
      requires d.powerUp.Some? ==> 1 <= d.powerUp.value.y <= BoardHeight - 3
      modifies this`background, this`powerUps, this`score, this`lives, this`activeShield, this`shieldDuration,
        this`playerChar, this`obstacles, this`gameOver, this`playerPos, this`jumping, this`jumpCount, this`jumpsLeft
      ensures Valid() && score >= old(score)
      ensures background == Scroll(old(background), d.column)
      ensures PlayState() == PlayTick(old(PlayState()), playerX, old(playerPos), width, height, d)
      ensures JumpState() == HandleJumpStep(old(JumpState()), height - 2)
    {
      ghost var p := PlayState();
      ghost var bg := background;
      UpdateGame(d);
      PlayTickKeeps(p, playerX, playerPos, width, height, d);
      ScrollKeepsSky(bg, d.column, width);
      HandleJumpKeeps(JumpState(), height - 2);
      HandleJump();
    }
  }
}
