/**
 Rows and their identifiers. A row is an object that many goroutines share, so what each
 helper changes matters: extending makes a new row, setting an identifier changes the row
 it is called on.
 */
module Rows {
  import opened Prelude

  datatype Value = Text(text: string) | Number(number: int) | Flag(flag: bool) | Null

  /** Alternating keys and values, as passed to `NewRow` and `Extend`. */
  type Args = seq<(string, Value)>

  type Values = map<string, Value>

  /** The hash of a row's values: the only thing known about it is that it is a function of them. */
  type Digest = Values -> string

  predicate KeysNonEmpty(args: Args) {
    forall i :: 0 <= i < |args| ==> args[i].0 != ""
  }

  function Lower(c: char): char {
    if 'A' <= c <= 'Z' then (c as int + 32) as char else c
  }

  function LowerFirst(key: string): (r: string)
    requires key != ""
  {
    [Lower(key[0])] + key[1..]
  }

  /** A capital first letter becomes the small one; everything else stays. */
  lemma LowerFirstIs(c: char, rest: string)
    ensures LowerFirst([c] + rest)
         == (if 'A' <= c <= 'Z' then ["abcdefghijklmnopqrstuvwxyz"[c as int - 'A' as int]] else [c]) + rest
  {
  }

  /** The values after setting all arguments in order, keys with a lower-case first letter. */
  function Overlay(values: Values, args: Args): Values
    requires KeysNonEmpty(args)
  {
    if args == [] then values
    else
      var last := args[|args| - 1];
      Overlay(values, args[..|args| - 1])[LowerFirst(last.0) := last.1]
  }

  /** The values after setting all arguments in order, keys as they are. */
  function Plain(args: Args): Values {
    if args == [] then map[]
    else
      var last := args[|args| - 1];
      Plain(args[..|args| - 1])[last.0 := last.1]
  }

  /** What every row for a call to a view of a contract holds. */
  function NamedCall(name: string): (r: Args)
    ensures KeysNonEmpty(r)
  {
    [("method", Text(name)), ("type", Text("ViewCall"))]
  }

  function NamedContract(name: string): (r: Args)
    ensures KeysNonEmpty(r)
  {
    [("contract", Text(name))]
  }

  class Row {
    var values: Values
    var id: Option<string>

    constructor (values: Values)
      ensures this.values == values && id == None
    {
      this.values, id := values, None;
    }

    static method NewRow(args: Args) returns (row: Row)
      ensures fresh(row) && row.values == Plain(args) && row.id == None
    {
      var values: Values := map[];
      for i := 0 to |args|
        invariant values == Plain(args[..i])
      {
        assert args[..i + 1][..i] == args[..i];
        values := values[args[i].0 := args[i].1];
      }
      assert args[..|args|] == args;
      row := new Row(values);
    }

    /** A new row; this one keeps its values and its identifier. */
    method Extend(args: Args) returns (row: Row)
      requires KeysNonEmpty(args)
      ensures fresh(row) && row.values == Overlay(values, args) && row.id == None
    {
      var extended := values;
      for i := 0 to |args|
        invariant extended == Overlay(values, args[..i])
      {
        assert args[..i + 1][..i] == args[..i];
        extended := extended[LowerFirst(args[i].0) := args[i].1];
      }
      assert args[..|args|] == args;
      row := new Row(extended);
    }

    /** Changes this row. */
    method WithId(id: string) returns (row: Row)
      modifies this`id
      ensures row == this && this.id == Some(id)
    {
      this.id := Some(id);
      row := this;
    }

    function GetID(digest: Digest): string
      reads this
    {
      if id.Some? then id.value else digest(values)
    }

    method ViewCall(name: string, args: Args, digest: Digest) returns (row: Row)
      requires KeysNonEmpty(args)
      ensures fresh(row) && row.id == Some((if id.Some? then id.value else digest(values)) + "." + name)
      ensures row.values == Overlay(values["method" := Text(name)]["type" := Text("ViewCall")], args)
    {
      var call := Extend([("method", Text(name)), ("type", Text("ViewCall"))]);
      row := call.Extend(args);
      NamedCallIs(values, name, []);
      row := row.WithId(GetID(digest) + "." + name);
    }

    method Contract(name: string, args: Args, digest: Digest) returns (row: Row)
      requires KeysNonEmpty(args)
      ensures fresh(row) && row.id == Some((if id.Some? then id.value else digest(values)) + "." + name)
      ensures row.values == Overlay(values["contract" := Text(name)], args)
    {
      var contract := Extend([("contract", Text(name))]);
      row := contract.Extend(args);
      NamedContractIs(values, name, []);
      row := row.WithId(GetID(digest) + "." + name);
    }

    /** Changes this row. */
    method AppendID(suffix: string, digest: Digest) returns (row: Row)
      modifies this`id
      ensures row == this
      ensures this.id == Some((if old(id).Some? then old(id).value else digest(values)) + "." + suffix)
    {
      row := WithId(GetID(digest) + "." + suffix);
    }
  }

  /** Extending twice is extending once with both argument lists. */
  lemma {:induction false} OverlayAppend(values: Values, a: Args, b: Args)
    requires KeysNonEmpty(a) && KeysNonEmpty(b)
    ensures KeysNonEmpty(a + b)
    ensures Overlay(Overlay(values, a), b) == Overlay(values, a + b)
  {
    if b == [] {
      assert a + b == a;
    } else {
      OverlayAppend(values, a, b[..|b| - 1]);
      assert (a + b)[..|a + b| - 1] == a + b[..|b| - 1];
    }
  }

  /** The same values, but for one key. */
  predicate SameBut(key: string, a: Values, b: Values) {
    a.Keys == b.Keys && forall k :: k in a && k != key ==> a[k] == b[k]
  }

  /** Extending keeps what two rows have in common. */
  lemma {:induction false} OverlaySame(key: string, a: Values, b: Values, args: Args)
    requires KeysNonEmpty(args) && SameBut(key, a, b)
    ensures SameBut(key, Overlay(a, args), Overlay(b, args))
  {
    if args == [] {
    } else {
      OverlaySame(key, a, b, args[..|args| - 1]);
    }
  }

  lemma {:induction false} LastOneWins(values: Values, args: Args, i: nat)
    requires KeysNonEmpty(args) && i < |args|
    requires forall j :: i < j < |args| ==> LowerFirst(args[j].0) != LowerFirst(args[i].0)
    ensures LowerFirst(args[i].0) in Overlay(values, args)
    ensures Overlay(values, args)[LowerFirst(args[i].0)] == args[i].1
  {
    if i == |args| - 1 {
    } else {
      LastOneWins(values, args[..|args| - 1], i);
    }
  }

  /**
   What a key holds after extending: the value of the last argument whose key has the same
   text but for a capital first letter, which becomes the small one.
   */
  lemma {:induction false} LastArgumentWins(values: Values, args: Args, i: nat, c: char, rest: string)
    requires KeysNonEmpty(args) && i < |args| && args[i].0 == [c] + rest
    requires forall j :: i < j < |args| ==> LowerFirst(args[j].0) != LowerFirst(args[i].0)
    ensures var key := (if 'A' <= c <= 'Z' then ["abcdefghijklmnopqrstuvwxyz"[c as int - 'A' as int]] else [c]) + rest;
            key in Overlay(values, args) && Overlay(values, args)[key] == args[i].1
  {
    LastOneWins(values, args, i);
    LowerFirstIs(c, rest);
  }

  lemma {:induction false} LastPlainArgumentWins(args: Args, i: nat)
    requires i < |args| && forall j :: i < j < |args| ==> args[j].0 != args[i].0
    ensures args[i].0 in Plain(args) && Plain(args)[args[i].0] == args[i].1
  {
    if i == |args| - 1 {
    } else {
      LastPlainArgumentWins(args[..|args| - 1], i);
    }
  }

  lemma {:induction false} OtherKeysKept(values: Values, args: Args, key: string)
    requires KeysNonEmpty(args)
    requires forall j :: 0 <= j < |args| ==> LowerFirst(args[j].0) != key
    ensures key in Overlay(values, args) <==> key in values
    ensures key in values ==> Overlay(values, args)[key] == values[key]
  {
    if args == [] {
    } else {
      OtherKeysKept(values, args[..|args| - 1], key);
    }
  }

  // ----- Arguments whose keys begin with a small letter

  predicate IsSmall(key: string) {
    key != "" && !('A' <= key[0] <= 'Z')
  }

  lemma OverlayOne(values: Values, a: (string, Value))
    requires IsSmall(a.0)
    ensures Overlay(values, [a]) == values[a.0 := a.1]
  {
    assert [a][..0] == [] && LowerFirst(a.0) == a.0;
  }

  lemma OverlayTwo(values: Values, a: (string, Value), b: (string, Value))
    requires IsSmall(a.0) && IsSmall(b.0)
    ensures Overlay(values, [a, b]) == values[a.0 := a.1][b.0 := b.1]
  {
    OverlayOne(values, a);
    OverlayOne(values[a.0 := a.1], b);
    OverlayAppend(values, [a], [b]);
    assert [a, b] == [a] + [b];
  }

  lemma OverlayThree(values: Values, a: (string, Value), b: (string, Value), c: (string, Value))
    requires IsSmall(a.0) && IsSmall(b.0) && IsSmall(c.0)
    ensures Overlay(values, [a, b, c]) == values[a.0 := a.1][b.0 := b.1][c.0 := c.1]
  {
    OverlayTwo(values, a, b);
    OverlayOne(values[a.0 := a.1][b.0 := b.1], c);
    OverlayAppend(values, [a, b], [c]);
    assert [a, b, c] == [a, b] + [c];
  }

  lemma OverlayFour(values: Values, a: (string, Value), b: (string, Value), c: (string, Value), d: (string, Value))
    requires IsSmall(a.0) && IsSmall(b.0) && IsSmall(c.0) && IsSmall(d.0)
    ensures Overlay(values, [a, b, c, d]) == values[a.0 := a.1][b.0 := b.1][c.0 := c.1][d.0 := d.1]
  {
    OverlayTwo(values, a, b);
    OverlayTwo(values[a.0 := a.1][b.0 := b.1], c, d);
    OverlayAppend(values, [a, b], [c, d]);
    assert [a, b, c, d] == [a, b] + [c, d];
  }

  lemma NamedCallIs(values: Values, name: string, args: Args)
    requires KeysNonEmpty(args)
    ensures Overlay(values, NamedCall(name)) == values["method" := Text(name)]["type" := Text("ViewCall")]
    ensures Overlay(values, NamedCall(name) + args) == Overlay(values["method" := Text(name)]["type" := Text("ViewCall")], args)
  {
    OverlayTwo(values, ("method", Text(name)), ("type", Text("ViewCall")));
    OverlayAppend(values, NamedCall(name), args);
  }

  lemma NamedContractIs(values: Values, name: string, args: Args)
    requires KeysNonEmpty(args)
    ensures Overlay(values, NamedContract(name)) == values["contract" := Text(name)]
    ensures Overlay(values, NamedContract(name) + args) == Overlay(values["contract" := Text(name)], args)
  {
    OverlayOne(values, ("contract", Text(name)));
    OverlayAppend(values, NamedContract(name), args);
  }
}
