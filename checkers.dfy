/**
 * The checkers rule system's extension points (systems/checkers/setup.js).
 *
 * `Setup` fills the unit dictionary with two nested loops per side; unit key
 * 4r + m is the m-th man of row r, standing in column 2m + r % 2. Light men
 * take rows 0-2 (keys 0..11), dark men rows 5-7 (keys 20..31).
 */
module Checkers {
  import opened Types
  import Units
  import opened CheckersMan

  /** The man that the setup loops place under key `k`. */
  function ManAt(k: int): Man
  {
    NewMan(2 * (k % 4) + (k / 4) % 2, k / 4, 0)
  }

  /** No man is placed under the keys of rows 3 and 4. */
  predicate OnSetupRow(k: int)
  {
    k < 12 || 20 <= k
  }

  /** The dictionary once every key below `n` has been visited by the setup loops. */
  function Filled(n: int): map<int, Man>
  {
    map k | 0 <= k < n && OnSetupRow(k) :: ManAt(k)
  }

  /** The board `setup` returns: the light rows (keys 0..11) and the dark rows (keys 20..31). */
  function InitialBoard(): map<int, Man>
  {
    Filled(32)
  }

  /** `u` is the board `setup` returns. */
  predicate IsInitialBoard(u: map<int, Man>)
  {
    u == InitialBoard()
  }

  /** The man built in iteration (r, m) of a setup loop is the one specified for key 4r + m. */
  lemma ManAtKey(r: int, m: int)
    requires 0 <= r && 0 <= m < 4
    ensures ManAt(4 * r + m) == NewMan(m * 2 + r % 2, r, 0)
  {
    assert (4 * r + m) / 4 == r && (4 * r + m) % 4 == m;
  }

  /** Nothing is filled before the first iteration. */
  lemma FilledEmpty()
    ensures Filled(0) == map[]
  {
  }

  /** Skipping rows 3 and 4 adds nothing. */
  lemma FilledGap()
    ensures Filled(12) == Filled(20)
  {
  }

  /** Iteration (r, m) of either side's loops stores key 4r + m, the next key that is filled. */
  lemma FilledStep(units: map<int, Man>, r: int, m: int)
    requires 0 <= r && 0 <= m < 4 && OnSetupRow(4 * r + m)
    requires units == Filled(4 * r + m)
    ensures units[4 * r + m := NewMan(m * 2 + r % 2, r, 0)] == Filled(4 * r + m + 1)
  {
    ManAtKey(r, m);
  }

  /** `preStart(users)` is a no-op: the units are left exactly as they were. */
  function PreStart(users: seq<Token>, units: map<int, Man>): (r: map<int, Man>)
    ensures r == units
  {
    units
  }

  /** `setup()`: takes no input, so every call yields the same board, `InitialBoard()`. */
  method Setup() returns (units: map<int, Man>)
    ensures units == InitialBoard()
  {
    units := map[];
    FilledEmpty();
    // Light units
    var r := 0;
    while r < 3
      invariant 0 <= r <= 3
      invariant units == Filled(4 * r)
    {
      var m := 0;
      while m < 4
        invariant 0 <= m <= 4
        invariant units == Filled(4 * r + m)
      {
        FilledStep(units, r, m);
        units := units[4 * r + m := NewMan(m * 2 + r % 2, r, 0)];
        m := m + 1;
      }
      r := r + 1;
    }
    // Dark units
    FilledGap();
    r := 5;
    while r < 8
      invariant 5 <= r <= 8
      invariant units == Filled(4 * r)
    {
      var m := 0;
      while m < 4
        invariant 0 <= m <= 4
        invariant units == Filled(4 * r + m)
      {
        FilledStep(units, r, m);
        units := units[4 * r + m := NewMan(m * 2 + r % 2, r, 0)];
        m := m + 1;
      }
      r := r + 1;
    }
  }

  /** The number of keys filled below `n`. */
  lemma {:induction false} FilledSize(n: int)
    requires 0 <= n
    ensures |Filled(n)| == if n <= 12 then n else if n <= 20 then 12 else n - 8
    decreases n
  {
    if n == 0 {
      FilledEmpty();
    } else if OnSetupRow(n - 1) {
      FilledSize(n - 1);
      assert Filled(n) == Filled(n - 1)[n - 1 := ManAt(n - 1)];
      assert n - 1 !in Filled(n - 1);
    } else {
      FilledSize(n - 1);
      assert Filled(n) == Filled(n - 1);
    }
  }

  /** The board holds exactly 24 units, under the keys 0..11 and 20..31; keys 12..19 are absent. */
  lemma BoardKeys()
    ensures forall k :: k in InitialBoard() <==> (0 <= k < 12 || 20 <= k < 32)
    ensures |InitialBoard()| == 24
  {
    FilledSize(32);
  }

  /** Key 4r + m holds a man at x = 2m + r % 2, y = r, z = 0, with no game, for every row of either side. */
  lemma BoardLayout(r: int, m: int)
    requires 0 <= m < 4
    requires 0 <= r < 3 || 5 <= r < 8
    ensures 4 * r + m in InitialBoard()
    ensures InitialBoard()[4 * r + m] == NewMan(2 * m + r % 2, r, 0)
  {
    ManAtKey(r, m);
  }

  /**
   * Light men fill rows 0-2 and dark men rows 5-7; rows 3 and 4 stay empty. Every man
   * stands on the board (0 <= x, y <= 7), on a square of the same colour (x = y mod 2), at z = 0.
   */
  lemma BoardSquares(k: int)
    requires k in InitialBoard()
    ensures var u := InitialBoard()[k].unit;
      && (k < 12 ==> 0 <= u.y <= 2)
      && (k >= 12 ==> 5 <= u.y <= 7)
      && 0 <= u.x <= 7 && u.x % 2 == u.y % 2 && u.z == 0 && u.game == None
  {
    assert InitialBoard()[k] == ManAt(k);
    RowOfKey(k);
    EvenPlus(k % 4, (k / 4) % 2);
  }

  /** The row of a key below 32: rows 0-2 below 12 and rows 5-7 from 20 on. */
  lemma RowOfKey(k: int)
    requires 0 <= k < 32
    ensures 0 <= k / 4 <= 7 && 0 <= k % 4 < 4
    ensures k < 12 ==> k / 4 <= 2
    ensures k >= 20 ==> k / 4 >= 5
  {
  }

  /** Column 2m + b has the parity of b. */
  lemma EvenPlus(m: int, b: int)
    requires 0 <= m < 4 && 0 <= b < 2
    ensures (2 * m + b) % 2 == b
  {
    assert m == 0 || m == 1 || m == 2 || m == 3;
  }

  /** No two men share a square. */
  lemma BoardSquaresDistinct(k1: int, k2: int)
    requires k1 in InitialBoard() && k2 in InitialBoard() && k1 != k2
    ensures InitialBoard()[k1].unit.x != InitialBoard()[k2].unit.x
         || InitialBoard()[k1].unit.y != InitialBoard()[k2].unit.y
  {
    ManAtKey(k1 / 4, k1 % 4);
    ManAtKey(k2 / 4, k2 % 4);
  }
}
