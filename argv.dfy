/**
 * The argument-vector convention shared by every command builder: required
 * tokens first, then a fixed table of optional elements, each of which is
 * appended only when its parameter is truthy.  A bare switch adds its flag;
 * a value-bearing option adds its flag immediately followed by its value.
 *
 * `Emit` renders such a table, `Decode` reads a rendered tail back against
 * the table's shape, and the two are proved inverse to each other.
 */
module Argv {
  import opened Text


  datatype Option<T> = None | Some(value: T)

  /** Python truthiness of an optional string: present and non-empty. */
  predicate Truthy(o: Option<string>) {
    o.Some? && o.value != ""
  }

  /** The string a truthy optional carries, or "" when it is falsy. */
  function TextOf(o: Option<string>): (s: string)
    ensures s != "" <==> Truthy(o)
  {
    if Truthy(o) then o.value else ""
  }

  /** Reading back the text of an optional gives its canonical form. */
  lemma TextRoundTrip(o: Option<string>)
    ensures OptionalOf(TextOf(o)) == Canonical(o)
  {
  }

  /** Python truthiness of an optional bool: present and true. */
  predicate IsSet(b: Option<bool>) {
    b == Some(true)
  }

  /** The canonical optional: `None` for both Python falsy forms (`None` and `""`). */
  function Canonical(o: Option<string>): (c: Option<string>)
    ensures Truthy(c) == Truthy(o) && TextOf(c) == TextOf(o)
    ensures c.Some? ==> c.value != ""
  {
    if Truthy(o) then o else None
  }

  /** The optional whose text is `s`; the inverse of `TextOf` on canonical values. */
  function OptionalOf(s: string): (o: Option<string>)
    ensures TextOf(o) == s && o == Canonical(o)
  {
    if s == "" then None else Some(s)
  }

  /** One row of an option table, with the parameter's truthy content. */
  datatype Opt = Switch(flag: string, on: bool) | Valued(flag: string, value: string)

  /** Whether the builder appends anything for this row. */
  predicate Emitted(o: Opt) {
    match o
    case Switch(_, on) => on
    case Valued(_, v) => v != ""
  }

  /** The tokens the builder appends for one row. */
  function Tokens(o: Opt): (ts: seq<string>)
    ensures Emitted(o) <==> ts != []
    ensures ts != [] ==> ts[0] == o.flag
    ensures o.Switch? ==> |ts| <= 1
    ensures o.Valued? && ts != [] ==> ts == [o.flag, o.value]
  {
    if !Emitted(o) then []
    else match o
      case Switch(f, _) => [f]
      case Valued(f, v) => [f, v]
  }

  /** The optional tail of an argument vector: every row's tokens, in table order. */
  function Emit(opts: seq<Opt>): seq<string> {
    if opts == [] then [] else Tokens(opts[0]) + Emit(opts[1..])
  }

  /** The value a row carries ("" for a switch or an absent value). */
  function ValueOf(o: Opt): string {
    match o
    case Switch(_, _) => ""
    case Valued(_, v) => v
  }

  /** The shape of a row: its flag and whether it takes a value. */
  datatype Kind = SwitchKind | ValuedKind
  datatype Slot = Slot(flag: string, kind: Kind)

  function SlotOf(o: Opt): Slot {
    match o
    case Switch(f, _) => Slot(f, SwitchKind)
    case Valued(f, _) => Slot(f, ValuedKind)
  }

  function Slots(opts: seq<Opt>): (r: seq<Slot>)
    ensures |r| == |opts|
    ensures forall i :: 0 <= i < |opts| ==> r[i] == SlotOf(opts[i])
  {
    seq(|opts|, i requires 0 <= i < |opts| => SlotOf(opts[i]))
  }

  /** No two rows of a table share a flag. */
  predicate DistinctFlags(slots: seq<Slot>) {
    forall i, j :: 0 <= i < j < |slots| ==> slots[i].flag != slots[j].flag
  }

  /** Two grammars with distinct flags, sharing none, join into one with distinct flags. */
  lemma DistinctJoin(a: seq<Slot>, b: seq<Slot>)
    requires DistinctFlags(a) && DistinctFlags(b)
    requires forall i, j :: 0 <= i < |a| && 0 <= j < |b| ==> a[i].flag != b[j].flag
    ensures DistinctFlags(a + b)
  {
  }

  /** The row a table has for a slot whose flag is not in the vector. */
  function Absent(s: Slot): (o: Opt)
    ensures SlotOf(o) == s && !Emitted(o)
  {
    match s.kind
    case SwitchKind => Switch(s.flag, false)
    case ValuedKind => Valued(s.flag, "")
  }

  function Prepend(o: Opt, rest: Option<seq<Opt>>): (r: Option<seq<Opt>>)
    ensures r.Some? <==> rest.Some?
    ensures r.Some? ==> r.value == [o] + rest.value
  {
    match rest
    case None => None
    case Some(os) => Some([o] + os)
  }

  /**
   * Reads an optional tail back against a table shape: a flag token at the
   * current position selects its row (and, for a value-bearing row, the very
   * next token is its value, whatever it looks like); a missing flag reads as
   * an unset row.  Anything left over, or an empty value, is rejected.
   */
  function Decode(slots: seq<Slot>, ts: seq<string>): (r: Option<seq<Opt>>)
    ensures r.Some? ==> Slots(r.value) == slots
    decreases |slots|
  {
    if slots == [] then
      (if ts == [] then Some([]) else None)
    else
      var s := slots[0];
      if ts != [] && ts[0] == s.flag then
        match s.kind
        case SwitchKind => Prepend(Switch(s.flag, true), Decode(slots[1..], ts[1..]))
        case ValuedKind =>
          if |ts| >= 2 && ts[1] != "" then Prepend(Valued(s.flag, ts[1]), Decode(slots[1..], ts[2..]))
          else None
      else
        Prepend(Absent(s), Decode(slots[1..], ts))
  }

  /** The first token of a non-empty rendering is the flag of one of the rows. */
  lemma {:induction false} EmitHead(opts: seq<Opt>)
    requires Emit(opts) != []
    ensures exists i :: 0 <= i < |opts| && Emit(opts)[0] == opts[i].flag
  {
    if Tokens(opts[0]) != [] {
      assert Emit(opts)[0] == opts[0].flag;
    } else {
      assert Emit(opts) == Emit(opts[1..]);
      EmitHead(opts[1..]);
      var i :| 0 <= i < |opts[1..]| && Emit(opts[1..])[0] == opts[1..][i].flag;
      assert Emit(opts)[0] == opts[i + 1].flag;
    }
  }

  /** Decoding one row in front of a tail whose head cannot be mistaken for that row's flag. */
  lemma DecodeRow(o: Opt, slots: seq<Slot>, tail: seq<string>)
    requires !Emitted(o) ==> tail == [] || tail[0] != o.flag
    ensures Decode([SlotOf(o)] + slots, Tokens(o) + tail) == Prepend(o, Decode(slots, tail))
  {
    var all := [SlotOf(o)] + slots;
    assert all[0] == SlotOf(o) && all[1..] == slots;
    var ts := Tokens(o) + tail;
    if Emitted(o) {
      match o
      case Switch(f, on) =>
        assert ts[0] == f && ts[1..] == tail;
      case Valued(f, v) =>
        assert ts[0] == f && ts[1] == v && ts[2..] == tail;
    } else {
      assert ts == tail;
      assert Absent(SlotOf(o)) == o;
    }
  }

  /** The grammar of a non-empty table: its first row's slot, then the rest's. */
  lemma SlotsFront(opts: seq<Opt>)
    requires opts != []
    ensures Slots(opts) == [SlotOf(opts[0])] + Slots(opts[1..])
  {
  }

  /** The rows after the first of a grammar with distinct flags have distinct flags. */
  lemma DistinctRest(o: Opt, rest: seq<Opt>)
    requires DistinctFlags([SlotOf(o)] + Slots(rest))
    ensures DistinctFlags(Slots(rest))
  {
    var slots := [SlotOf(o)] + Slots(rest);
    forall i, j | 0 <= i < j < |rest|
      ensures Slots(rest)[i].flag != Slots(rest)[j].flag
    {
      assert slots[i + 1].flag != slots[j + 1].flag;
    }
  }

  /** The rendering of the rows after the first cannot start with the first row's flag. */
  lemma FreshHead(o: Opt, rest: seq<Opt>)
    requires DistinctFlags([SlotOf(o)] + Slots(rest))
    ensures Emit(rest) == [] || Emit(rest)[0] != o.flag
  {
    var slots := [SlotOf(o)] + Slots(rest);
    if Emit(rest) != [] {
      EmitHead(rest);
      var i :| 0 <= i < |rest| && Emit(rest)[0] == rest[i].flag;
      assert slots[i + 1].flag == rest[i].flag && slots[0].flag == o.flag;
    }
  }

  /** Decoding a rendered table gives the table back: no option is lost or confused. */
  lemma {:induction false} DecodeEmit(opts: seq<Opt>)
    requires DistinctFlags(Slots(opts))
    ensures Decode(Slots(opts), Emit(opts)) == Some(opts)
  {
    if opts != [] {
      var o, rest := opts[0], opts[1..];
      SlotsFront(opts);
      DistinctRest(o, rest);
      FreshHead(o, rest);
      DecodeEmit(rest);
      DecodeRow(o, Slots(rest), Emit(rest));
      assert [o] + rest == opts;
    }
  }

  /** Whatever `Decode` accepts is exactly the rendering of what it returns. */
  lemma {:induction false} EmitDecode(slots: seq<Slot>, ts: seq<string>)
    requires Decode(slots, ts).Some?
    ensures Emit(Decode(slots, ts).value) == ts
    decreases |slots|
  {
    var opts := Decode(slots, ts).value;
    if slots != [] {
      var s := slots[0];
      var rest := opts[1..];
      if ts != [] && ts[0] == s.flag {
        match s.kind
        case SwitchKind =>
          EmitDecode(slots[1..], ts[1..]);
          assert Emit(opts) == [s.flag] + Emit(rest);
          assert ts == [ts[0]] + ts[1..];
        case ValuedKind =>
          EmitDecode(slots[1..], ts[2..]);
          assert Emit(opts) == [s.flag, ts[1]] + Emit(rest);
          assert ts == [ts[0], ts[1]] + ts[2..];
      } else {
        EmitDecode(slots[1..], ts);
        assert Emit(opts) == Emit(rest);
      }
    }
  }

  /** Two tables of one shape render alike exactly when they are equal. */
  lemma EmitInjective(a: seq<Opt>, b: seq<Opt>)
    requires Slots(a) == Slots(b) && DistinctFlags(Slots(a))
    ensures Emit(a) == Emit(b) <==> a == b
  {
    if Emit(a) == Emit(b) {
      DecodeEmit(a);
      DecodeEmit(b);
    }
  }

  /** The number of tokens the first `k` rows of a table render to. */
  function TokenCount(opts: seq<Opt>, k: nat): nat
    requires k <= |opts|
  {
    if k == 0 then 0 else TokenCount(opts, k - 1) + |Tokens(opts[k - 1])|
  }

  lemma {:induction false} EmitCount(opts: seq<Opt>, k: nat)
    requires k <= |opts|
    ensures |Emit(opts[..k])| == TokenCount(opts, k)
  {
    if k == 0 {
      assert opts[..0] == [];
    } else {
      EmitCount(opts, k - 1);
      EmitStep(opts, k - 1);
    }
  }

  /** The length of a rendering counts exactly the tokens of its set rows. */
  lemma EmitLength(opts: seq<Opt>)
    ensures |Emit(opts)| == TokenCount(opts, |opts|)
  {
    EmitCount(opts, |opts|);
    EmitWhole(opts, |opts|);
  }

  /** Rendering distributes over concatenation of tables. */
  lemma {:induction false} EmitAppend(a: seq<Opt>, b: seq<Opt>)
    ensures Emit(a + b) == Emit(a) + Emit(b)
  {
    if a == [] {
      assert a + b == b;
    } else {
      assert (a + b)[1..] == a[1..] + b;
      EmitAppend(a[1..], b);
    }
  }

  /** Appending one more row's tokens extends the rendering of the table's prefix. */
  lemma EmitStep(opts: seq<Opt>, k: nat)
    requires k < |opts|
    ensures Emit(opts[..k + 1]) == Emit(opts[..k]) + Tokens(opts[k])
  {
    assert opts[..k + 1] == opts[..k] + [opts[k]];
    EmitAppend(opts[..k], [opts[k]]);
    assert Emit([opts[k]]) == Tokens(opts[k]) + Emit([]);
  }

  /** `if on: args.append(flag)`: one switch row of a builder. */
  method AppendSwitch(args: seq<string>, flag: string, on: bool) returns (r: seq<string>)
    ensures r == args + Tokens(Switch(flag, on))
    ensures on ==> r == args + [flag]
    ensures !on ==> r == args
  {
    r := args;
    if on {
      r := r + [flag];
    }
  }

  /** `if value: args.extend([flag, value])` for an optional string parameter. */
  method AppendValued(args: seq<string>, flag: string, value: Option<string>) returns (r: seq<string>)
    ensures r == args + Tokens(Valued(flag, TextOf(value)))
    ensures Truthy(value) ==> r == args + [flag, value.value]
    ensures !Truthy(value) ==> r == args
  {
    r := args;
    if Truthy(value) {
      r := r + [flag, value.value];
    }
  }

  /** `if value: args.extend([flag, value])` for a plain string parameter. */
  method AppendText(args: seq<string>, flag: string, value: string) returns (r: seq<string>)
    ensures r == args + Tokens(Valued(flag, value))
    ensures value != "" ==> r == args + [flag, value]
    ensures value == "" ==> r == args
  {
    r := args;
    if value != "" {
      r := r + [flag, value];
    }
  }

  /** A vector split after its required tokens. */
  lemma SplitAt(head: seq<string>, tail: seq<string>)
    ensures (head + tail)[..|head|] == head && (head + tail)[|head|..] == tail
  {
  }

  /**
   * A table, or the head of a vector, given element by element is the
   * display of those elements (a short-cut for the solver, which finds
   * equalities of long displays expensive).
   */
  lemma Rows5(a: seq<Opt>, x0: Opt, x1: Opt, x2: Opt, x3: Opt, x4: Opt)
    requires |a| == 5
    requires a[0] == x0 && a[1] == x1 && a[2] == x2 && a[3] == x3 && a[4] == x4
    ensures a == [x0, x1, x2, x3, x4]
  {
  }

  lemma Rows7(a: seq<Opt>, x0: Opt, x1: Opt, x2: Opt, x3: Opt, x4: Opt, x5: Opt, x6: Opt)
    requires |a| == 7
    requires a[0] == x0 && a[1] == x1 && a[2] == x2 && a[3] == x3 && a[4] == x4 && a[5] == x5 && a[6] == x6
    ensures a == [x0, x1, x2, x3, x4, x5, x6]
  {
  }

  lemma Rows8(a: seq<Opt>, x0: Opt, x1: Opt, x2: Opt, x3: Opt, x4: Opt, x5: Opt, x6: Opt, x7: Opt)
    requires |a| == 8
    requires a[0] == x0 && a[1] == x1 && a[2] == x2 && a[3] == x3 && a[4] == x4 && a[5] == x5 && a[6] == x6 && a[7] == x7
    ensures a == [x0, x1, x2, x3, x4, x5, x6, x7]
  {
  }

  lemma Rows11(a: seq<Opt>, x0: Opt, x1: Opt, x2: Opt, x3: Opt, x4: Opt, x5: Opt, x6: Opt, x7: Opt, x8: Opt, x9: Opt, x10: Opt)
    requires |a| == 11
    requires a[0] == x0 && a[1] == x1 && a[2] == x2 && a[3] == x3 && a[4] == x4 && a[5] == x5 && a[6] == x6 && a[7] == x7 && a[8] == x8 && a[9] == x9 && a[10] == x10
    ensures a == [x0, x1, x2, x3, x4, x5, x6, x7, x8, x9, x10]
  {
  }

  /** The width of one row: one token for a set switch, two for a set value, none otherwise. */
  lemma SwitchWidth(flag: string, on: bool)
    ensures |Tokens(Switch(flag, on))| == if on then 1 else 0
  {
  }

  lemma ValuedWidth(flag: string, value: Option<string>)
    ensures |Tokens(Valued(flag, TextOf(value)))| == if Truthy(value) then 2 else 0
  {
  }

  lemma PlainWidth(flag: string, value: string)
    ensures |Tokens(Valued(flag, value))| == if value != "" then 2 else 0
  {
  }

  /** The width of a table given row by row: the sum of its rows' widths. */
  lemma Width5(x0: Opt, x1: Opt, x2: Opt, x3: Opt, x4: Opt)
    ensures |Emit([x0, x1, x2, x3, x4])| == |Tokens(x0)| + |Tokens(x1)| + |Tokens(x2)| + |Tokens(x3)| + |Tokens(x4)|
  {
    var a := [x0, x1, x2, x3, x4];
    EmitLength(a);
    assert TokenCount(a, 5) == TokenCount(a, 4) + |Tokens(x4)|;
    assert TokenCount(a, 4) == TokenCount(a, 3) + |Tokens(x3)|;
    assert TokenCount(a, 3) == TokenCount(a, 2) + |Tokens(x2)|;
    assert TokenCount(a, 2) == TokenCount(a, 1) + |Tokens(x1)|;
    assert TokenCount(a, 1) == |Tokens(x0)|;
  }

  lemma Width7(x0: Opt, x1: Opt, x2: Opt, x3: Opt, x4: Opt, x5: Opt, x6: Opt)
    ensures |Emit([x0, x1, x2, x3, x4, x5, x6])| == |Tokens(x0)| + |Tokens(x1)| + |Tokens(x2)| + |Tokens(x3)| + |Tokens(x4)| + |Tokens(x5)| + |Tokens(x6)|
  {
    var a := [x0, x1, x2, x3, x4, x5, x6];
    EmitLength(a);
    assert TokenCount(a, 7) == TokenCount(a, 6) + |Tokens(x6)|;
    assert TokenCount(a, 6) == TokenCount(a, 5) + |Tokens(x5)|;
    assert TokenCount(a, 5) == TokenCount(a, 4) + |Tokens(x4)|;
    assert TokenCount(a, 4) == TokenCount(a, 3) + |Tokens(x3)|;
    assert TokenCount(a, 3) == TokenCount(a, 2) + |Tokens(x2)|;
    assert TokenCount(a, 2) == TokenCount(a, 1) + |Tokens(x1)|;
    assert TokenCount(a, 1) == |Tokens(x0)|;
  }

  lemma Width8(x0: Opt, x1: Opt, x2: Opt, x3: Opt, x4: Opt, x5: Opt, x6: Opt, x7: Opt)
    ensures |Emit([x0, x1, x2, x3, x4, x5, x6, x7])| == |Tokens(x0)| + |Tokens(x1)| + |Tokens(x2)| + |Tokens(x3)| + |Tokens(x4)| + |Tokens(x5)| + |Tokens(x6)| + |Tokens(x7)|
  {
    var a := [x0, x1, x2, x3, x4, x5, x6, x7];
    EmitLength(a);
    assert TokenCount(a, 8) == TokenCount(a, 7) + |Tokens(x7)|;
    assert TokenCount(a, 7) == TokenCount(a, 6) + |Tokens(x6)|;
    assert TokenCount(a, 6) == TokenCount(a, 5) + |Tokens(x5)|;
    assert TokenCount(a, 5) == TokenCount(a, 4) + |Tokens(x4)|;
    assert TokenCount(a, 4) == TokenCount(a, 3) + |Tokens(x3)|;
    assert TokenCount(a, 3) == TokenCount(a, 2) + |Tokens(x2)|;
    assert TokenCount(a, 2) == TokenCount(a, 1) + |Tokens(x1)|;
    assert TokenCount(a, 1) == |Tokens(x0)|;
  }

  lemma Width11(x0: Opt, x1: Opt, x2: Opt, x3: Opt, x4: Opt, x5: Opt, x6: Opt, x7: Opt, x8: Opt, x9: Opt, x10: Opt)
    ensures |Emit([x0, x1, x2, x3, x4, x5, x6, x7, x8, x9, x10])| == |Tokens(x0)| + |Tokens(x1)| + |Tokens(x2)| + |Tokens(x3)| + |Tokens(x4)| + |Tokens(x5)| + |Tokens(x6)| + |Tokens(x7)| + |Tokens(x8)| + |Tokens(x9)| + |Tokens(x10)|
  {
    var a := [x0, x1, x2, x3, x4, x5, x6, x7, x8, x9, x10];
    EmitLength(a);
    assert TokenCount(a, 11) == TokenCount(a, 10) + |Tokens(x10)|;
    assert TokenCount(a, 10) == TokenCount(a, 9) + |Tokens(x9)|;
    assert TokenCount(a, 9) == TokenCount(a, 8) + |Tokens(x8)|;
    assert TokenCount(a, 8) == TokenCount(a, 7) + |Tokens(x7)|;
    assert TokenCount(a, 7) == TokenCount(a, 6) + |Tokens(x6)|;
    assert TokenCount(a, 6) == TokenCount(a, 5) + |Tokens(x5)|;
    assert TokenCount(a, 5) == TokenCount(a, 4) + |Tokens(x4)|;
    assert TokenCount(a, 4) == TokenCount(a, 3) + |Tokens(x3)|;
    assert TokenCount(a, 3) == TokenCount(a, 2) + |Tokens(x2)|;
    assert TokenCount(a, 2) == TokenCount(a, 1) + |Tokens(x1)|;
    assert TokenCount(a, 1) == |Tokens(x0)|;
  }

  lemma Head2(a: seq<string>, x0: string, x1: string)
    requires |a| >= 2
    requires a[0] == x0 && a[1] == x1
    ensures a[..2] == [x0, x1]
  {
  }

  lemma Head6(a: seq<string>, x0: string, x1: string, x2: string, x3: string, x4: string, x5: string)
    requires |a| >= 6
    requires a[0] == x0 && a[1] == x1 && a[2] == x2 && a[3] == x3 && a[4] == x4 && a[5] == x5
    ensures a[..6] == [x0, x1, x2, x3, x4, x5]
  {
  }

  /** A switch row is determined by its slot and whether it is set. */
  lemma SwitchRead(o: Opt, flag: string)
    requires SlotOf(o) == Slot(flag, SwitchKind)
    ensures Switch(flag, Emitted(o)) == o
  {
  }

  /** A value-bearing row is determined by its slot and the canonical form of its value. */
  lemma ValuedRead(o: Opt, flag: string)
    requires SlotOf(o) == Slot(flag, ValuedKind)
    ensures Valued(flag, TextOf(OptionalOf(ValueOf(o)))) == o
  {
  }

  /** A prefix of a table as long as the table is the table. */
  lemma EmitWhole(opts: seq<Opt>, k: nat)
    requires k == |opts|
    ensures Emit(opts[..k]) == Emit(opts)
  {
    assert opts[..k] == opts;
  }

  /** The rendering of the first `k` rows, in the order a builder appends them. */
  function EmitFirst(opts: seq<Opt>, k: nat): seq<string>
    requires k <= |opts|
  {
    if k == 0 then [] else EmitFirst(opts, k - 1) + Tokens(opts[k - 1])
  }

  lemma {:induction false} EmitFirstSlice(opts: seq<Opt>, k: nat)
    requires k <= |opts|
    ensures EmitFirst(opts, k) == Emit(opts[..k])
  {
    if k == 0 {
      assert opts[..0] == [];
    } else {
      EmitFirstSlice(opts, k - 1);
      EmitStep(opts, k - 1);
    }
  }

  /** Appending every row in turn renders the whole table. */
  lemma EmitFirstAll(opts: seq<Opt>)
    ensures EmitFirst(opts, |opts|) == Emit(opts)
  {
    EmitFirstSlice(opts, |opts|);
    EmitWhole(opts, |opts|);
  }

  /**
   * One step of a builder, read against the rows it has passed: appending
   * the next row's tokens renders the rows so far with that row added.
   */
  lemma Grown(head: seq<string>, done: seq<Opt>, row: Opt, before: seq<string>, after: seq<string>)
    requires before == head + Emit(done)
    requires after == before + Tokens(row)
    ensures after == head + Emit(done + [row])
  {
    EmitAppend(done, [row]);
    assert Emit([row]) == Tokens(row) + Emit([]);
  }

  method PushSwitch(ghost head: seq<string>, ghost done: seq<Opt>, args: seq<string>, flag: string, on: bool)
    returns (r: seq<string>, ghost rows: seq<Opt>)
    requires args == head + Emit(done)
    ensures rows == done + [Switch(flag, on)] && r == head + Emit(rows)
  {
    r := AppendSwitch(args, flag, on);
    rows := done + [Switch(flag, on)];
    Grown(head, done, Switch(flag, on), args, r);
  }

  method PushValued(ghost head: seq<string>, ghost done: seq<Opt>, args: seq<string>, flag: string,
                    value: Option<string>) returns (r: seq<string>, ghost rows: seq<Opt>)
    requires args == head + Emit(done)
    ensures rows == done + [Valued(flag, TextOf(value))] && r == head + Emit(rows)
  {
    r := AppendValued(args, flag, value);
    rows := done + [Valued(flag, TextOf(value))];
    Grown(head, done, Valued(flag, TextOf(value)), args, r);
  }

  method PushText(ghost head: seq<string>, ghost done: seq<Opt>, args: seq<string>, flag: string, value: string)
    returns (r: seq<string>, ghost rows: seq<Opt>)
    requires args == head + Emit(done)
    ensures rows == done + [Valued(flag, value)] && r == head + Emit(rows)
  {
    r := AppendText(args, flag, value);
    rows := done + [Valued(flag, value)];
    Grown(head, done, Valued(flag, value), args, r);
  }

  /** The last row of a table renders last. */
  lemma EmitLast(opts: seq<Opt>)
    requires opts != []
    ensures Emit(opts) == Emit(opts[..|opts| - 1]) + Tokens(opts[|opts| - 1])
  {
    EmitStep(opts, |opts| - 1);
    EmitWhole(opts, |opts|);
  }

  /**
   * Every emitted row appears in the rendering as one contiguous run of its
   * own tokens (a flag immediately followed by its value), after the
   * rendering of all earlier rows.
   */
  lemma RowInEmit(opts: seq<Opt>, k: nat)
    requires k < |opts|
    ensures Emit(opts) == Emit(opts[..k]) + (Tokens(opts[k]) + Emit(opts[k + 1..]))
  {
    assert opts == opts[..k] + opts[k..];
    EmitAppend(opts[..k], opts[k..]);
    EmitAt(opts, k);
  }

  /** One row of the rendering of a table's suffix. */
  lemma EmitAt(opts: seq<Opt>, k: nat)
    requires k < |opts|
    ensures Emit(opts[k..]) == Tokens(opts[k]) + Emit(opts[k + 1..])
  {
    assert opts[k..][1..] == opts[k + 1..];
  }

  /** A table none of whose rows is set renders to nothing. */
  lemma {:induction false} EmitNone(opts: seq<Opt>)
    requires forall i :: 0 <= i < |opts| ==> !Emitted(opts[i])
    ensures Emit(opts) == []
  {
    if opts != [] {
      EmitNone(opts[1..]);
    }
  }
}
