/** Small shared vocabulary: an optional value, sums over finite maps, and white
    space. */
module Common {

  datatype Option<+T> = None | Some(value: T)

  function Max(a: int, b: int): int {
    if a < b then b else a
  }

  /** The sum of a map's values, independent of any order of its keys. */
  ghost function Total<K>(m: map<K, nat>): nat {
    if m == map[] then 0
    else
      var k :| k in m;
      m[k] + Total(m - {k})
  }

  /** Any key may be taken out first. */
  lemma {:induction false} TotalSplit<K>(m: map<K, nat>, k: K)
    requires k in m
    ensures Total(m) == m[k] + Total(m - {k})
    decreases |m|
  {
    var j :| j in m && Total(m) == m[j] + Total(m - {j});
    if j != k {
      TotalSplit(m - {j}, k);
      TotalSplit(m - {k}, j);
      assert m - {j} - {k} == m - {k} - {j};
    }
  }

  function At<K>(m: map<K, nat>, k: K): nat {
    if k in m then m[k] else 0
  }

  /** Two maps that agree everywhere but at `k` differ in sum by what they
      differ there. */
  lemma TotalMoves<K>(m: map<K, nat>, m': map<K, nat>, k: K)
    requires m - {k} == m' - {k}
    ensures Total(m') - At(m', k) == Total(m) - At(m, k)
  {
    if k in m {
      TotalSplit(m, k);
    } else {
      assert m - {k} == m;
    }
    if k in m' {
      TotalSplit(m', k);
    } else {
      assert m' - {k} == m';
    }
  }

  /** A number above all of these. */
  lemma {:induction false} Unused(taken: set<nat>) returns (n: nat)
    ensures forall k :: k in taken ==> k < n
  {
    if taken == {} {
      n := 0;
    } else {
      var k :| k in taken;
      var above := Unused(taken - {k});
      n := if k < above then above else k + 1;
      assert taken == taken - {k} + {k};
    }
  }

  // ------------------------------------------------------------- white space

  /** What `str.strip` and `\s` take for white space. */
  predicate IsSpace(c: char) {
    var u := c as int;
    || 9 <= u <= 13 || 28 <= u <= 32 || u == 0x85 || u == 0xA0 || u == 0x1680
    || 0x2000 <= u <= 0x200A || u == 0x2028 || u == 0x2029 || u == 0x202F || u == 0x205F || u == 0x3000
  }

  function StripLeft(s: string): string {
    if s != "" && IsSpace(s[0]) then StripLeft(s[1..]) else s
  }

  function StripRight(s: string): string {
    if s != "" && IsSpace(s[|s| - 1]) then StripRight(s[..|s| - 1]) else s
  }

  function Strip(s: string): string {
    StripRight(StripLeft(s))
  }
}
