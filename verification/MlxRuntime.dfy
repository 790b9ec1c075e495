/** Right padding for batched inference, and why it changes nothing: under a
    causal model, the state at each row's last real token is the one that row
    would have had on its own. */
module MlxRuntime {
  type Token = int

  datatype Result<+T> = Ok(value: T) | Err(reason: string)

  datatype Padded = Padded(rows: seq<seq<Token>>, lengths: seq<nat>)

  function MaxLength(rows: seq<seq<Token>>): nat {
    if rows == [] then 0
    else if |rows[0]| > MaxLength(rows[1..]) then |rows[0]| else MaxLength(rows[1..])
  }

  lemma {:induction false} MaxLengthIsTheMost(rows: seq<seq<Token>>)
    ensures forall i :: 0 <= i < |rows| ==> |rows[i]| <= MaxLength(rows)
    ensures rows != [] ==> exists i :: 0 <= i < |rows| && |rows[i]| == MaxLength(rows)
  {
    if rows != [] {
      MaxLengthIsTheMost(rows[1..]);
      forall i | 1 <= i < |rows| ensures |rows[i]| <= MaxLength(rows) {
        assert rows[i] == rows[1..][i - 1];
      }
      if |rows[0]| != MaxLength(rows) {
        var i :| 0 <= i < |rows[1..]| && |rows[1..][i]| == MaxLength(rows[1..]);
        assert |rows[i + 1]| == MaxLength(rows);
      }
    }
  }

  function Repeat(pad: Token, n: nat): seq<Token> {
    seq(n, _ => pad)
  }

  function PadRow(row: seq<Token>, pad: Token, width: nat): seq<Token> {
    row + Repeat(pad, if width < |row| then 0 else width - |row|)
  }

  /** Pads every row to the longest; no rows, or a row with no tokens, is an
      error. */
  function RightPad(rows: seq<seq<Token>>, pad: Token): Result<Padded> {
    if rows == [] then Err("empty batch")
    else if exists i :: 0 <= i < |rows| && rows[i] == [] then Err("a sequence with no tokens")
    else
      var width := MaxLength(rows);
      Ok(Padded(seq(|rows|, i requires 0 <= i < |rows| => PadRow(rows[i], pad, width)),
                seq(|rows|, i requires 0 <= i < |rows| => |rows[i]|)))
  }

  predicate Rectangular<T>(rows: seq<seq<T>>, width: nat) {
    forall i :: 0 <= i < |rows| ==> |rows[i]| == width
  }

  /** Padding gives the smallest rectangle that holds every row, with nothing
      but padding after each row's own tokens. */
  lemma PaddedRows(rows: seq<seq<Token>>, pad: Token)
    ensures RightPad(rows, pad).Ok? <==> rows != [] && forall i :: 0 <= i < |rows| ==> rows[i] != []
    ensures RightPad(rows, pad).Ok? ==>
      var p := RightPad(rows, pad).value;
      && |p.rows| == |p.lengths| == |rows| && Rectangular(p.rows, MaxLength(rows))
      && (exists i :: 0 <= i < |rows| && p.lengths[i] == MaxLength(rows))
      && (forall i :: 0 <= i < |rows| ==> 0 < p.lengths[i] <= MaxLength(rows) && p.rows[i][..p.lengths[i]] == rows[i])
      && (forall i, j :: 0 <= i < |rows| && p.lengths[i] <= j < MaxLength(rows) ==> p.rows[i][j] == pad)
  {
    MaxLengthIsTheMost(rows);
    if RightPad(rows, pad).Ok? {
      var p := RightPad(rows, pad).value;
      var i :| 0 <= i < |rows| && |rows[i]| == MaxLength(rows);
      assert p.lengths[i] == MaxLength(rows);
    }
  }

  /** Hidden states of shape (batch, width, hidden); a state stands for one
      vector of the last axis. */
  datatype Hidden<S> = Hidden(width: nat, states: seq<seq<S>>)

  /** Picks each row's state at its last real token. */
  function GatherLastTokenStates<S>(hidden: Hidden<S>, lengths: seq<int>): Result<seq<S>>
    requires Rectangular(hidden.states, hidden.width)
  {
    if |hidden.states| != |lengths| then Err("rows and lengths differ")
    else if exists i :: 0 <= i < |lengths| && !(0 < lengths[i] <= hidden.width) then Err("length outside the width")
    else Ok(seq(|lengths|, i requires 0 <= i < |lengths| => hidden.states[i][lengths[i] - 1]))
  }

  /** A model gives one state for each token of a rectangular batch. */
  ghost predicate ShapeKept<S(!new)>(model: seq<seq<Token>> -> seq<seq<S>>) {
    forall batch, width :: Rectangular(batch, width) ==> |model(batch)| == |batch| && Rectangular(model(batch), width)
  }

  /** Causal: a state depends on nothing but its own row's tokens up to its
      own position, whatever else the batch holds. */
  ghost predicate Causal<S(!new)>(model: seq<seq<Token>> -> seq<seq<S>>)
    requires ShapeKept(model)
  {
    forall a, wa: nat, i, b, wb: nat, k, j ::
      (Rectangular(a, wa) && Rectangular(b, wb) && 0 <= i < |a| && 0 <= k < |b| && 0 <= j < wa && j < wb
       && a[i][..j + 1] == b[k][..j + 1]) ==> StateAt(model, a, wa, i, j) == StateAt(model, b, wb, k, j)
  }

  ghost function StateAt<S(!new)>(model: seq<seq<Token>> -> seq<seq<S>>, batch: seq<seq<Token>>, width: nat,
                                 i: nat, j: nat): S
    requires ShapeKept(model) && Rectangular(batch, width) && i < |batch| && j < width
  {
    assert Rectangular(model(batch), width);
    model(batch)[i][j]
  }

  /** The last state of a row computed alone, without padding. */
  ghost function LastStateAlone<S(!new)>(model: seq<seq<Token>> -> seq<seq<S>>, row: seq<Token>): S
    requires ShapeKept(model) && row != []
  {
    StateAt(model, [row], |row|, 0, |row| - 1)
  }

  lemma GatheredAt<S>(hidden: Hidden<S>, lengths: seq<int>)
    requires Rectangular(hidden.states, hidden.width) && |hidden.states| == |lengths|
    requires forall i :: 0 <= i < |lengths| ==> 0 < lengths[i] <= hidden.width
    ensures var gathered := GatherLastTokenStates(hidden, lengths);
            && gathered.Ok? && |gathered.value| == |lengths|
            && forall i :: 0 <= i < |lengths| ==> gathered.value[i] == hidden.states[i][lengths[i] - 1]
  {
  }

  /** A row's last state is the same in any rectangle that begins with it. */
  lemma LastStateAnywhere<S(!new)>(model: seq<seq<Token>> -> seq<seq<S>>, batch: seq<seq<Token>>, width: nat,
                                      i: nat, row: seq<Token>)
    requires ShapeKept(model) && Causal(model)
    requires Rectangular(batch, width) && i < |batch| && 0 < |row| <= width && batch[i][..|row|] == row
    ensures StateAt(model, batch, width, i, |row| - 1) == LastStateAlone(model, row)
  {
    assert Rectangular([row], |row|);
    assert row[..|row|] == row;
  }

  /** Padding preserves meaning: for any causal model, any batch that can be
      padded and any pad token, gathering from the padded batch gives each row
      the last state of its own unpadded computation. */
  lemma PaddingPreservesLastStates<S(!new)>(model: seq<seq<Token>> -> seq<seq<S>>, rows: seq<seq<Token>>, pad: Token)
    requires ShapeKept(model) && Causal(model)
    requires rows != [] && forall i :: 0 <= i < |rows| ==> rows[i] != []
    ensures RightPad(rows, pad).Ok?
    ensures var p, width := RightPad(rows, pad).value, MaxLength(rows);
      && Rectangular(model(p.rows), width)
      && var gathered := GatherLastTokenStates(Hidden(width, model(p.rows)), p.lengths);
         gathered.Ok? && |gathered.value| == |rows|
         && forall i :: 0 <= i < |rows| ==> gathered.value[i] == LastStateAlone(model, rows[i])
  {
    PaddedRows(rows, pad);
    var p, width := RightPad(rows, pad).value, MaxLength(rows);
    forall i | 0 <= i < |rows|
      ensures StateAt(model, p.rows, width, i, |rows[i]| - 1) == LastStateAlone(model, rows[i])
    {
      LastStateAnywhere(model, p.rows, width, i, rows[i]);
    }
    GatheredAt(Hidden(width, model(p.rows)), p.lengths);
  }

  /** Any rectangle wide enough would do: the pad token and the rest of the
      batch are irrelevant to every row's gathered state. */
  lemma PadTokenIsIrrelevant<S(!new)>(model: seq<seq<Token>> -> seq<seq<S>>, rows: seq<seq<Token>>, pad: Token,
                                      others: seq<seq<Token>>, otherPad: Token, i: nat, k: nat)
    requires ShapeKept(model) && Causal(model)
    requires i < |rows| && k < |others| && rows[i] == others[k]
    requires forall i :: 0 <= i < |rows| ==> rows[i] != []
    requires forall i :: 0 <= i < |others| ==> others[i] != []
    ensures RightPad(rows, pad).Ok? && RightPad(others, otherPad).Ok?
    ensures var p, q := RightPad(rows, pad).value, RightPad(others, otherPad).value;
      && Rectangular(model(p.rows), MaxLength(rows)) && Rectangular(model(q.rows), MaxLength(others))
      && var x := GatherLastTokenStates(Hidden(MaxLength(rows), model(p.rows)), p.lengths);
         var y := GatherLastTokenStates(Hidden(MaxLength(others), model(q.rows)), q.lengths);
         x.Ok? && y.Ok? && |x.value| == |rows| && |y.value| == |others| && x.value[i] == y.value[k]
  {
    PaddingPreservesLastStates(model, rows, pad);
    PaddingPreservesLastStates(model, others, otherPad);
  }
}
