/**
 Rewriting numbered SQL placeholders (`?7`) to anonymous ones (`?`).

 SQL text is a byte string, one `char` per byte, as the rewriter reads it. The meaning of a
 statement is given independently of the rewriter: tokenize, number the placeholders by SQLite's
 rule, and replace each placeholder by the parameter its number selects.
 */
module Placeholders {
  import opened Wrappers

  datatype Value = Null | Integer(n: int) | Real(r: real) | Text(s: string) | Blob(bytes: seq<char>)

  const USIZE_MAX: nat := 0xFFFF_FFFF_FFFF_FFFF

  predicate IsDigit(c: char) {
    '0' <= c <= '9'
  }

  lemma DigitsAre(c: char)
    ensures IsDigit(c) <==> c in "0123456789"
  {
  }

  function DigitRun(s: string): (n: nat)
    ensures n <= |s|
    ensures forall i :: 0 <= i < n ==> IsDigit(s[i])
    ensures n < |s| ==> !IsDigit(s[n])
  {
    if s == [] || !IsDigit(s[0]) then 0 else 1 + DigitRun(s[1..])
  }

  function ParseDigits(s: string): nat
    requires forall i :: 0 <= i < |s| ==> IsDigit(s[i])
  {
    if s == [] then 0
    else
      assert IsDigit(s[|s| - 1]);
      ParseDigits(s[..|s| - 1]) * 10 + (s[|s| - 1] as int - '0' as int)
  }

  /** Digits are read as a decimal number. */
  lemma ParsedExactly(s: string, d: nat)
    requires d < 10 && forall i :: 0 <= i < |s| ==> IsDigit(s[i])
    ensures ParseDigits([]) == 0
    ensures IsDigit("0123456789"[d]) && ParseDigits(s + ["0123456789"[d]]) == 10 * ParseDigits(s) + d
  {
    var c := "0123456789"[d];
    assert c as int == '0' as int + d;
    assert (s + [c])[..|s|] == s;
  }

  // ----- what SQLite reads -----

  datatype Token = Plain(c: char) | Slot(explicit: Option<nat>)

  /** The explicit number of the placeholder whose `?` precedes `rest`, if it has one. */
  function SlotNumber(rest: string): Option<nat> {
    var n := DigitRun(rest);
    if n == 0 then None else Some(ParseDigits(rest[..n]))
  }

  function Tokens(sql: string): seq<Token>
    decreases |sql|
  {
    if sql == [] then []
    else if sql[0] == '?' then
      [Slot(SlotNumber(sql[1..]))] + Tokens(sql[1 + DigitRun(sql[1..])..])
    else [Plain(sql[0])] + Tokens(sql[1..])
  }

  function Slots(tokens: seq<Token>): seq<Option<nat>> {
    if tokens == [] then []
    else (if tokens[0].Slot? then [tokens[0].explicit] else []) + Slots(tokens[1..])
  }

  /** SQLite's rule: an explicit number stands for itself, a bare `?` takes the next number. */
  function SqliteNumber(slots: seq<Option<nat>>, k: nat): nat
    requires k < |slots|
    decreases k, 1
  {
    match slots[k]
    case Some(number) => number
    case None => 1 + LargestBefore(slots, k)
  }

  /** The largest number assigned to one of the first `k` placeholders, or zero. */
  function LargestBefore(slots: seq<Option<nat>>, k: nat): nat
    requires k <= |slots|
    decreases k, 0
  {
    if k == 0 then 0
    else
      var before, last := LargestBefore(slots, k - 1), SqliteNumber(slots, k - 1);
      if before < last then last else before
  }

  predicate FromOne(slots: seq<Option<nat>>) {
    forall k :: 0 <= k < |slots| && slots[k].Some? ==> slots[k].value >= 1
  }

  predicate NumberedFromOne(sql: string) {
    FromOne(Slots(Tokens(sql)))
  }

  /** The statement with its parameters filled in; absent when some placeholder has none. */
  datatype Piece = Char(c: char) | Bound(v: Value)

  predicate HasParameter(slots: seq<Option<nat>>, params: seq<Value>, k: nat)
    requires k < |slots|
  {
    1 <= SqliteNumber(slots, k) <= |params|
  }

  /** Every placeholder from the given one on has a parameter. */
  predicate Supplied(slots: seq<Option<nat>>, params: seq<Value>, from: nat) {
    forall k: nat :: from <= k < |slots| ==> HasParameter(slots, params, k)
  }

  /** The parameter SQLite binds to the k-th placeholder. */
  function SqliteValue(slots: seq<Option<nat>>, params: seq<Value>, k: nat): Value
    requires k < |slots|
  {
    if HasParameter(slots, params, k) then params[SqliteNumber(slots, k) - 1] else Null
  }

  function SqliteValues(slots: seq<Option<nat>>, params: seq<Value>, from: nat): (r: seq<Value>)
    requires from <= |slots|
    ensures |r| == |slots| - from
    ensures forall k :: 0 <= k < |r| ==> r[k] == SqliteValue(slots, params, from + k)
    decreases |slots| - from
  {
    if from == |slots| then [] else [SqliteValue(slots, params, from)] + SqliteValues(slots, params, from + 1)
  }

  function Fill(tokens: seq<Token>, values: seq<Value>): seq<Piece>
    requires |Slots(tokens)| == |values|
  {
    if tokens == [] then []
    else if tokens[0].Plain? then [Char(tokens[0].c)] + Fill(tokens[1..], values)
    else [Bound(values[0])] + Fill(tokens[1..], values[1..])
  }

  function Meaning(sql: string, params: seq<Value>): Option<seq<Piece>> {
    var slots := Slots(Tokens(sql));
    if Supplied(slots, params, 0) then Some(Fill(Tokens(sql), SqliteValues(slots, params, 0))) else None
  }

  // ----- the rewriter -----

  datatype Rewritten = Rewritten(sql: string, ordered: seq<Value>)

  /** The number of a placeholder, and where its parameter is. */
  function NumberOf(explicit: Option<nat>, maxIndex: nat): nat {
    explicit.GetOr(maxIndex + 1)
  }

  function PositionOf(number: nat): nat {
    if number == 0 then 0 else number - 1
  }

  function Larger(maxIndex: nat, number: nat): nat {
    if maxIndex < number then number else maxIndex
  }

  /** What the loop makes of the text still to be read, given the largest index so far. */
  function RewriteFrom(sql: string, params: seq<Value>, maxIndex: nat): Result<Rewritten>
    decreases |sql|
  {
    if sql == [] then Ok(Rewritten([], []))
    else if sql[0] != '?' then Push([sql[0]], [], RewriteFrom(sql[1..], params, maxIndex))
    else
      var explicit := SlotNumber(sql[1..]);
      var number := NumberOf(explicit, maxIndex);
      var position := PositionOf(number);
      if explicit.Some? && number > USIZE_MAX then Err
      else if position >= |params| then Err
      else Push("?", [params[position]], RewriteFrom(sql[1 + DigitRun(sql[1..])..], params, Larger(maxIndex, number)))
  }

  function Push(text: string, values: seq<Value>, rest: Result<Rewritten>): Result<Rewritten> {
    match rest
    case Ok(r) => Ok(Rewritten(text + r.sql, values + r.ordered))
    case Err => Err
  }

  lemma PushPush(text: string, values: seq<Value>, text': string, values': seq<Value>, rest: Result<Rewritten>)
    ensures Push(text, values, Push(text', values', rest)) == Push(text + text', values + values', rest)
  {
    if rest.Ok? {
      assert text + (text' + rest.value.sql) == (text + text') + rest.value.sql;
      assert values + (values' + rest.value.ordered) == (values + values') + rest.value.ordered;
    }
  }

  lemma PushNothing(rest: Result<Rewritten>)
    ensures Push("", [], rest) == rest
  {
    if rest.Ok? {
      assert "" + rest.value.sql == rest.value.sql;
      assert [] + rest.value.ordered == rest.value.ordered;
    }
  }

  /** One turn of the loop on a plain character. */
  lemma PlainTurn(sql: string, index: nat, params: seq<Value>, maxIndex: nat, out: string, ordered: seq<Value>)
    requires index < |sql| && sql[index] != '?'
    ensures Push(out, ordered, RewriteFrom(sql[index..], params, maxIndex))
         == Push(out + [sql[index]], ordered, RewriteFrom(sql[index + 1..], params, maxIndex))
  {
    var rest := sql[index..];
    assert rest[1..] == sql[index + 1..];
    PushPush(out, ordered, [sql[index]], [], RewriteFrom(rest[1..], params, maxIndex));
    assert ordered + [] == ordered;
  }

  /** One turn of the loop on a placeholder whose digits end at `end`. */
  lemma SlotTurn(sql: string, index: nat, end: nat, params: seq<Value>, maxIndex: nat, out: string, ordered: seq<Value>)
    requires index < end <= |sql| && sql[index] == '?'
    requires end - (index + 1) == DigitRun(sql[index + 1..])
    ensures
      var digits := sql[index + 1..end];
      var number := if digits == [] then maxIndex + 1 else ParseDigits(digits);
      var position := if number == 0 then 0 else number - 1;
      (Push(out, ordered, RewriteFrom(sql[index..], params, maxIndex))
      == if (digits != [] && number > USIZE_MAX) || position >= |params| then Err
         else Push(out + "?", ordered + [params[position]],
                   RewriteFrom(sql[end..], params, if maxIndex < number then number else maxIndex)))
  {
    var rest := sql[index..];
    var digits := sql[index + 1..end];
    assert rest[1..] == sql[index + 1..];
    assert rest[1..][..end - (index + 1)] == digits;
    assert rest[1 + DigitRun(rest[1..])..] == sql[end..];
    var number := if digits == [] then maxIndex + 1 else ParseDigits(digits);
    assert SlotNumber(rest[1..]).GetOr(maxIndex + 1) == number;
    var position := if number == 0 then 0 else number - 1;
    if position < |params| {
      PushPush(out, ordered, "?", [params[position]],
               RewriteFrom(sql[end..], params, if maxIndex < number then number else maxIndex));
    }
  }

  lemma PushDone(text: string, values: seq<Value>)
    ensures Push(text, values, Ok(Rewritten([], []))) == Ok(Rewritten(text, values))
  {
    assert text + [] == text && values + [] == values;
  }

  /** Where the digits that start at `start` end. */
  method SkipDigits(sql: string, start: nat) returns (end: nat)
    requires start <= |sql|
    ensures start <= end <= |sql| && end - start == DigitRun(sql[start..])
    ensures forall i :: start <= i < end ==> IsDigit(sql[i])
  {
    end := start;
    while end < |sql| && IsDigit(sql[end])
      invariant start <= end <= |sql|
      invariant forall i :: start <= i < end ==> IsDigit(sql[i])
      invariant end - start + DigitRun(sql[end..]) == DigitRun(sql[start..])
    {
      assert sql[end..][1..] == sql[end + 1..];
      end := end + 1;
    }
  }

  method NormalizeSqlAndParams(sql: string, params: seq<Value>) returns (r: Result<Rewritten>)
    ensures r == RewriteFrom(sql, params, 0)
  {
    var out, ordered := "", [];
    var maxIndex: nat := 0;
    var index := 0;
    assert sql[index..] == sql;
    PushNothing(RewriteFrom(sql, params, 0));
    RewriteNothing(params);
    hide Push, RewriteFrom, DigitRun, ParseDigits;
    while index < |sql|
      invariant 0 <= index <= |sql|
      invariant Push(out, ordered, RewriteFrom(sql[index..], params, maxIndex)) == RewriteFrom(sql, params, 0)
    {
      if sql[index] == '?' {
        var start := index + 1;
        var end := SkipDigits(sql, start);
        SlotTurn(sql, index, end, params, maxIndex, out, ordered);
        var number: nat;
        if end > start {
          number := ParseDigits(sql[start..end]);
          if number > USIZE_MAX {
            return Err;
          }
          maxIndex := if maxIndex < number then number else maxIndex;
        } else {
          maxIndex := maxIndex + 1;
          number := maxIndex;
        }
        var position := if number == 0 then 0 else number - 1;
        if position >= |params| {
          return Err;
        }
        ordered := ordered + [params[position]];
        out := out + "?";
        index := end;
      } else {
        PlainTurn(sql, index, params, maxIndex, out, ordered);
        out := out + [sql[index]];
        index := index + 1;
      }
    }
    assert sql[index..] == [];
    PushDone(out, ordered);
    return Ok(Rewritten(out, ordered));
  }

  lemma RewriteNothing(params: seq<Value>)
    ensures forall maxIndex :: RewriteFrom([], params, maxIndex) == Ok(Rewritten([], []))
  {
  }

  // ----- the rewriter preserves the statement -----

  /** Every placeholder made anonymous. */
  function Anonymous(tokens: seq<Token>): (r: seq<Token>)
    ensures |r| == |tokens|
    ensures |Slots(r)| == |Slots(tokens)|
    ensures forall k :: 0 <= k < |Slots(r)| ==> Slots(r)[k] == None
  {
    if tokens == [] then []
    else [if tokens[0].Slot? then Slot(None) else tokens[0]] + Anonymous(tokens[1..])
  }

  /** The rewriter seen through tokens: the parameters picked, in order, or a missing one. */
  function Pick(slots: seq<Option<nat>>, params: seq<Value>, maxIndex: nat): Option<seq<Value>> {
    if slots == [] then Some([])
    else
      var number := NumberOf(slots[0], maxIndex);
      var position := PositionOf(number);
      if position >= |params| then None
      else
        match Pick(slots[1..], params, Larger(maxIndex, number))
        case Some(rest) => Some([params[position]] + rest)
        case None => None
  }

  predicate RewritesTo(sql: string, picked: Option<seq<Value>>, r: Result<Rewritten>) {
    && (r.Ok? <==> picked.Some?)
    && (r.Ok? ==>
          && r.value.ordered == picked.value
          && Tokens(r.value.sql) == Anonymous(Tokens(sql))
          && (r.value.sql == [] <==> sql == [])
          && (sql != [] ==> r.value.sql[0] == sql[0]))
  }

  lemma PushChar(sql: string, picked: Option<seq<Value>>, rest: Result<Rewritten>)
    requires sql != [] && sql[0] != '?' && RewritesTo(sql[1..], picked, rest)
    ensures RewritesTo(sql, picked, Push([sql[0]], [], rest))
  {
    if rest.Ok? {
      var out := [sql[0]] + rest.value.sql;
      assert out[1..] == rest.value.sql && out[0] == sql[0];
      assert [] + rest.value.ordered == rest.value.ordered;
      assert Tokens(out) == [Plain(sql[0])] + Tokens(rest.value.sql);
    }
  }

  lemma PushSlot(sql: string, value: Value, picked: Option<seq<Value>>, rest: Result<Rewritten>)
    requires sql != [] && sql[0] == '?' && RewritesTo(sql[1 + DigitRun(sql[1..])..], picked, rest)
    ensures RewritesTo(sql, if picked.Some? then Some([value] + picked.value) else None, Push("?", [value], rest))
  {
    if rest.Ok? {
      var out := "?" + rest.value.sql;
      assert out[1..] == rest.value.sql && out[0] == '?';
      assert DigitRun(rest.value.sql) == 0;
      assert out[1 + 0..] == rest.value.sql;
      assert Tokens(out) == [Slot(None)] + Tokens(rest.value.sql);
    }
  }

  /** Reading text and picking parameters can be separated. */
  lemma {:induction false} RewriteIsPick(sql: string, params: seq<Value>, maxIndex: nat)
    requires |params| <= USIZE_MAX
    ensures RewritesTo(sql, Pick(Slots(Tokens(sql)), params, maxIndex), RewriteFrom(sql, params, maxIndex))
    decreases |sql|
  {
    if sql == [] {
    } else if sql[0] != '?' {
      RewriteIsPick(sql[1..], params, maxIndex);
      assert Slots(Tokens(sql)) == Slots(Tokens(sql[1..])) by {
        assert Tokens(sql)[1..] == Tokens(sql[1..]);
      }
      PushChar(sql, Pick(Slots(Tokens(sql[1..])), params, maxIndex), RewriteFrom(sql[1..], params, maxIndex));
    } else {
      RewriteSlotIsPick(sql, params, maxIndex);
    }
  }

  lemma SlotFirst(sql: string)
    requires sql != [] && sql[0] == '?'
    ensures Slots(Tokens(sql)) == [SlotNumber(sql[1..])] + Slots(Tokens(sql[1 + DigitRun(sql[1..])..]))
  {
    hide DigitRun, ParseDigits, SlotNumber;
    assert Tokens(sql)[1..] == Tokens(sql[1 + DigitRun(sql[1..])..]);
  }

  lemma PickFirst(explicit: Option<nat>, rest: seq<Option<nat>>, params: seq<Value>, maxIndex: nat)
    ensures var number := NumberOf(explicit, maxIndex);
            Pick([explicit] + rest, params, maxIndex)
            == if PositionOf(number) >= |params| then None
               else
                 match Pick(rest, params, Larger(maxIndex, number))
                 case Some(picked) => Some([params[PositionOf(number)]] + picked)
                 case None => None
  {
    assert ([explicit] + rest)[1..] == rest;
  }

  lemma RewriteFirst(sql: string, params: seq<Value>, maxIndex: nat)
    requires |params| <= USIZE_MAX && sql != [] && sql[0] == '?'
    ensures var number := NumberOf(SlotNumber(sql[1..]), maxIndex);
            RewriteFrom(sql, params, maxIndex)
            == if PositionOf(number) >= |params| then Err
               else Push("?", [params[PositionOf(number)]],
                         RewriteFrom(sql[1 + DigitRun(sql[1..])..], params, Larger(maxIndex, number)))
  {
    hide DigitRun, ParseDigits, SlotNumber, Push;
  }

  lemma {:induction false} RewriteSlotIsPick(sql: string, params: seq<Value>, maxIndex: nat)
    requires |params| <= USIZE_MAX && sql != [] && sql[0] == '?'
    ensures RewritesTo(sql, Pick(Slots(Tokens(sql)), params, maxIndex), RewriteFrom(sql, params, maxIndex))
    decreases |sql|, 0
  {
    hide Slots, Tokens, Pick, RewriteFrom, ParseDigits, SlotNumber, Push;
    var tail, number := sql[1 + DigitRun(sql[1..])..], NumberOf(SlotNumber(sql[1..]), maxIndex);
    SlotFirst(sql);
    PickFirst(SlotNumber(sql[1..]), Slots(Tokens(tail)), params, maxIndex);
    RewriteFirst(sql, params, maxIndex);
    if PositionOf(number) < |params| {
      RewriteIsPick(tail, params, Larger(maxIndex, number));
      PushSlot(sql, params[PositionOf(number)], Pick(Slots(Tokens(tail)), params, Larger(maxIndex, number)),
               RewriteFrom(tail, params, Larger(maxIndex, number)));
    }
  }

  /** Picking with a running maximum follows SQLite's numbering rule. */
  lemma {:induction false} PickIsSqlite(slots: seq<Option<nat>>, params: seq<Value>, done: nat)
    requires done <= |slots| && FromOne(slots)
    ensures Pick(slots[done..], params, LargestBefore(slots, done))
         == if Supplied(slots, params, done) then Some(SqliteValues(slots, params, done)) else None
    decreases |slots| - done
  {
    if done < |slots| {
      assert slots[done..][1..] == slots[done + 1..];
      PickIsSqlite(slots, params, done + 1);
      assert Supplied(slots, params, done) <==> HasParameter(slots, params, done) && Supplied(slots, params, done + 1);
    }
  }

  lemma {:induction false} AnonymousNumbers(slots: seq<Option<nat>>, k: nat)
    requires k <= |slots| && forall i :: 0 <= i < |slots| ==> slots[i] == None
    ensures LargestBefore(slots, k) == k
    ensures k < |slots| ==> SqliteNumber(slots, k) == k + 1
  {
    if k > 0 {
      AnonymousNumbers(slots, k - 1);
    }
  }

  lemma {:induction false} FillAnonymous(tokens: seq<Token>, values: seq<Value>)
    requires |Slots(tokens)| == |values|
    ensures Fill(Anonymous(tokens), values) == Fill(tokens, values)
  {
    if tokens != [] {
      assert Anonymous(tokens)[1..] == Anonymous(tokens[1..]);
      FillAnonymous(tokens[1..], if tokens[0].Slot? then values[1..] else values);
    }
  }

  lemma {:induction false} AnonymousTwice(tokens: seq<Token>)
    ensures Anonymous(Anonymous(tokens)) == Anonymous(tokens)
  {
    if tokens != [] {
      assert Anonymous(tokens)[1..] == Anonymous(tokens[1..]);
      AnonymousTwice(tokens[1..]);
    }
  }

  /** A text whose placeholders are all bare is the text of its tokens. */
  lemma {:induction false} BareTextFromTokens(a: string, b: string)
    requires Tokens(a) == Tokens(b) == Anonymous(Tokens(a))
    ensures a == b
    decreases |a|
  {
    if a == [] {
    } else if a[0] != '?' {
      assert Tokens(a)[0] == Plain(a[0]);
      assert b != [] && b[0] == a[0];
      assert Tokens(a)[1..] == Tokens(a[1..]) == Tokens(b[1..]);
      BareTextFromTokens(a[1..], b[1..]);
    } else {
      assert Tokens(a)[0] == Slot(None) == Tokens(b)[0];
      assert b[0] == '?';
      assert Tokens(a)[1..] == Tokens(a[1..]) == Tokens(b[1..]);
      BareTextFromTokens(a[1..], b[1..]);
    }
  }

  /** What the rewriter returns, in SQLite's terms. */
  lemma RewriteIsSqlite(sql: string, params: seq<Value>)
    requires NumberedFromOne(sql) && |params| <= USIZE_MAX
    ensures var slots := Slots(Tokens(sql));
            RewritesTo(sql, if Supplied(slots, params, 0) then Some(SqliteValues(slots, params, 0)) else None,
                       RewriteFrom(sql, params, 0))
  {
    var slots := Slots(Tokens(sql));
    RewriteIsPick(sql, params, 0);
    PickIsSqlite(slots, params, 0);
    assert slots[0..] == slots;
  }

  /** Bare placeholders are numbered one by one, so each gets the parameter at its own position. */
  lemma BareValues(slots: seq<Option<nat>>, params: seq<Value>)
    requires |params| == |slots| && forall i :: 0 <= i < |slots| ==> slots[i] == None
    ensures Supplied(slots, params, 0) && SqliteValues(slots, params, 0) == params
  {
    forall k: nat | k < |slots|
      ensures SqliteNumber(slots, k) == k + 1
    {
      AnonymousNumbers(slots, k);
    }
  }

  /**
   The rewriter fails exactly when SQLite would find no parameter for some placeholder; otherwise
   the rewritten statement with its reordered parameters means what the original meant.
   */
  lemma RewritingPreservesMeaning(sql: string, params: seq<Value>)
    requires NumberedFromOne(sql) && |params| <= USIZE_MAX
    ensures RewriteFrom(sql, params, 0).Ok? <==> Meaning(sql, params).Some?
    ensures RewriteFrom(sql, params, 0).Ok? ==>
              var r := RewriteFrom(sql, params, 0).value;
              && Meaning(r.sql, r.ordered) == Meaning(sql, params)
              && Tokens(r.sql) == Anonymous(Tokens(sql))
  {
    hide RewriteFrom, Tokens, Supplied, SqliteValues, Fill, Anonymous;
    RewriteIsSqlite(sql, params);
    if RewriteFrom(sql, params, 0).Ok? {
      var r := RewriteFrom(sql, params, 0).value;
      BareValues(Slots(Tokens(r.sql)), r.ordered);
      FillAnonymous(Tokens(sql), r.ordered);
    }
  }

  /** Rewriting a rewritten statement changes neither its text nor its parameters. */
  lemma RewritingIsIdempotent(sql: string, params: seq<Value>)
    requires NumberedFromOne(sql) && |params| <= USIZE_MAX
    requires RewriteFrom(sql, params, 0).Ok?
    requires |RewriteFrom(sql, params, 0).value.ordered| <= USIZE_MAX
    ensures var r := RewriteFrom(sql, params, 0).value;
            RewriteFrom(r.sql, r.ordered, 0) == Ok(r)
  {
    hide RewriteFrom, Supplied, SqliteValues, Tokens, Anonymous;
    RewriteIsSqlite(sql, params);
    var r := RewriteFrom(sql, params, 0).value;
    AnonymousTwice(Tokens(sql));
    BareValues(Slots(Tokens(r.sql)), r.ordered);
    assert NumberedFromOne(r.sql);
    RewriteIsSqlite(r.sql, r.ordered);
    BareTextFromTokens(RewriteFrom(r.sql, r.ordered, 0).value.sql, r.sql);
  }
}
