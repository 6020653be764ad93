/** What the array builtins promise together: reading back what was
    written, the shape of a join, slices of concatenations, and where the
    code as written departs from the character-counting model. */
module ArrayFacts {
  import opened Wrappers
  import opened Text
  import opened Values
  import opened ArrayLib

  /** Popping right after a push gives back the item pushed. */
  lemma PushThenPop(es: seq<Value>, x: Value)
    ensures var pushed := Push([Array(es), x]);
      pushed.Ok? && Pop([pushed.value]) == Ok(x)
  {
    var pushed := Push([Array(es), x]);
    assert pushed.value.elements == es + [x];
  }

  /** A push makes the array one longer. */
  lemma PushLength(es: seq<Value>, x: Value)
    ensures var pushed := Push([Array(es), x]);
      pushed.Ok? && Length([pushed.value]) == Ok(Number((|es| + 1) as real))
  {
  }

  /** A whole number, as an index, is itself. */
  lemma IndexOfNat(i: nat)
    requires i <= UsizeMax
    ensures ToUsize(i as real) == i
  {
  }

  /** After `set` at index `i`, `get` at `i` gives the value set, and `get`
      anywhere else gives what it gave before. */
  lemma GetAfterSet(es: seq<Value>, i: nat, x: Value, j: nat)
    requires i < |es| && i <= UsizeMax && j <= UsizeMax
    ensures var written := Set([Array(es), Number(i as real), x]);
      written.Ok? &&
      Get([written.value, Number(j as real)]) ==
        if j == i then Ok(x) else Get([Array(es), Number(j as real)])
  {
    IndexOfNat(i);
    IndexOfNat(j);
  }

  /** `set("hello", 1, "a")` is "hallo". */
  lemma SetHello()
    ensures Set([String("hello"), Number(1.0), String("a")]) == Ok(String("hallo"))
  {
    IndexOfNat(1);
    assert "hello"[1 := 'a'] == "hallo";
  }

  /** After `set` on a String, `get` at the same index gives the
      replacement character. */
  lemma GetAfterSetString(s: string, i: nat, c: char)
    requires i < |s| && i <= UsizeMax
    ensures var written := Set([String(s), Number(i as real), String([c])]);
      written.Ok? && Get([written.value, Number(i as real)]) == Ok(String([c]))
  {
    IndexOfNat(i);
  }

  /** Reading from a concatenation reads from the first Array below its
      length and from the second above it. */
  lemma GetOfConcat(xs: seq<Value>, ys: seq<Value>, i: nat)
    requires i < |xs| + |ys| && i <= UsizeMax
    ensures var joined := Concat([Array(xs), Array(ys)]);
      joined.Ok? &&
      Get([joined.value, Number(i as real)]) ==
        if i < |xs| then Ok(xs[i]) else Ok(ys[i - |xs|])
  {
    IndexOfNat(i);
  }

  /** Slicing a concatenation where the first Array ends gives the second. */
  lemma SliceOfConcat(xs: seq<Value>, ys: seq<Value>)
    requires |xs| <= UsizeMax
    ensures var joined := Concat([Array(xs), Array(ys)]);
      joined.Ok? && Slice([joined.value, Number(|xs| as real)]) == Ok(Array(ys))
  {
    IndexOfNat(|xs|);
    var joined := Concat([Array(xs), Array(ys)]);
    var whole := joined.value.elements;
    assert SliceInRange([joined.value, Number(|xs| as real)]);
    assert whole[|xs|..|whole|] == ys;
  }

  /** A slice from 0 with no length is the whole Array or String. */
  lemma SliceWhole(v: Value)
    requires v.Array? || v.String?
    ensures Slice([v, Number(0.0)]) == Ok(v)
  {
    if v.Array? {
      assert v.elements[0..|v.elements|] == v.elements;
    } else {
      assert v.s[0..|v.s|] == v.s;
    }
  }

  /** Element `i` of a slice from `start` is element `start + i` of the
      Array. */
  lemma GetOfSlice(es: seq<Value>, start: nat, length: nat, i: nat)
    requires start <= |es| && length <= UsizeMax && start + i <= UsizeMax
    requires i < length && start + i < |es|
    ensures var part := Slice([Array(es), Number(start as real), Number(length as real)]);
      part.Ok? &&
      Get([part.value, Number(i as real)]) == Get([Array(es), Number((start + i) as real)])
  {
    IndexOfNat(start);
    IndexOfNat(length);
    IndexOfNat(i);
    IndexOfNat(start + i);
  }

  /** A start past the end is an error that names the index and the length. */
  lemma SliceStartTooFar(es: seq<Value>, start: nat)
    requires |es| < start <= UsizeMax
    ensures Slice([Array(es), Number(start as real)]) ==
      Err("slice: start index " + NatToString(start) + " out of bounds (array length: " + NatToString(|es|) + ")")
  {
    IndexOfNat(start);
  }

  /** The two examples `slice([1, 2, 3, 4], 1, 2)` and `slice("hello", 1, 3)`. */
  lemma SliceExamples()
    ensures Slice([Array([Number(1.0), Number(2.0), Number(3.0), Number(4.0)]), Number(1.0), Number(2.0)])
      == Ok(Array([Number(2.0), Number(3.0)]))
    ensures Slice([String("hello"), Number(1.0), Number(3.0)]) == Ok(String("ell"))
  {
    IndexOfNat(1);
    IndexOfNat(2);
    IndexOfNat(3);
    assert [Number(1.0), Number(2.0), Number(3.0), Number(4.0)][1..3] == [Number(2.0), Number(3.0)];
    assert "hello"[1..4] == "ell";
  }

  /** Strings are joined verbatim. */
  lemma {:induction false} JoinStrings(xs: seq<string>, show: real -> string)
    ensures var es := seq(|xs|, i requires 0 <= i < |xs| => String(xs[i]));
      ElementTexts(es, |es|, show) == xs
  {
    var es := seq(|xs|, i requires 0 <= i < |xs| => String(xs[i]));
    var texts := ElementTexts(es, |es|, show);
    assert |texts| == |xs|;
    forall i | 0 <= i < |xs|
      ensures texts[i] == xs[i]
    {
      assert es[i] == String(xs[i]);
    }
  }

  /** `n` elements joined: the texts of the elements and `n - 1`
      separators, and nothing else. */
  lemma JoinSeparatorCount(es: seq<Value>, sep: string, show: real -> string)
    requires es != [] && forall i :: 0 <= i < |es| ==> Joinable(es[i])
    ensures var texts := ElementTexts(es, |es|, show);
      |Join(texts, sep)| == TotalLength(texts) + (|es| - 1) * |sep|
  {
    JoinLength(ElementTexts(es, |es|, show), sep);
  }

  /** One element is written alone, with no separator. */
  lemma JoinSingle(v: Value, sep: string, show: real -> string)
    requires Joinable(v)
    ensures Join(ElementTexts([v], 1, show), sep) == ElementText(v, show)
  {
  }

  /** `join(["a", nil, true], "-")` is "a-nil-true". */
  lemma JoinExample(show: real -> string)
    ensures var es := [String("a"), Nil, Boolean(true)];
      Join(ElementTexts(es, 3, show), "-") == "a-nil-true"
  {
    var es := [String("a"), Nil, Boolean(true)];
    var texts := ElementTexts(es, 3, show);
    assert texts == ["a", "nil", "true"];
    assert texts[..2] == ["a", "nil"] && ["a", "nil"][..1] == ["a"];
  }

  /** A two-byte character. */
  const EAcute: char := '\U{E9}'

  lemma EAcuteWidth()
    ensures Utf8Len([EAcute]) == 2
  {
    assert [EAcute][1..] == [];
  }

  /** `get("é", 1)`: the byte length 2 lets index 1 through, and there is no
      second character, so the code as written panics; counting characters,
      it is an out-of-bounds error. */
  lemma GetPastLastCharacter()
    ensures GetAsWritten([String([EAcute]), Number(1.0)]) == None
    ensures Get([String([EAcute]), Number(1.0)]) == Err(OutOfBounds("get", 1, "string", 1))
  {
    EAcuteWidth();
    IndexOfNat(1);
  }

  /** `set("é", 1, "a")` panics as written, for the same reason. */
  lemma SetPastLastCharacter()
    ensures SetAsWritten([String([EAcute]), Number(1.0), String("a")]) == None
    ensures Set([String([EAcute]), Number(1.0), String("a")]) == Err(OutOfBounds("set", 1, "string", 1))
  {
    EAcuteWidth();
    IndexOfNat(1);
    assert Utf8Len("a") == 1 by { assert "a"[1..] == []; }
  }

  /** `set("a", 0, "é")`: "é" is one character but two bytes, so the code
      as written refuses it. */
  lemma SetRefusesMultibyteReplacement()
    ensures SetAsWritten([String("a"), Number(0.0), String([EAcute])]) ==
      Some(Err("set: replacement must be a single character"))
    ensures Set([String("a"), Number(0.0), String([EAcute])]) == Ok(String([EAcute]))
  {
    EAcuteWidth();
    assert Utf8Len("a") == 1 by { assert "a"[1..] == []; }
    assert "a"[0 := EAcute] == [EAcute];
  }

  /** `slice("é", 2)`: the start passes the byte-length check but lies past
      the only character, so the code as written panics. */
  lemma SlicePastLastCharacter()
    ensures SliceAsWritten([String([EAcute]), Number(2.0)]) == None
    ensures Slice([String([EAcute]), Number(2.0)]) ==
      Err("slice: start index " + NatToString(2) + " out of bounds (string length: " + NatToString(1) + ")")
  {
    EAcuteWidth();
    IndexOfNat(2);

  }

  /** `slice([1], 1, 1e20)`: the length saturates to `UsizeMax`, and
      `start + length` overflows, so the code as written panics; taken as
      a mathematical sum it is clamped to the end, an empty slice. */
  lemma SliceLengthOverflow()
    ensures SliceAsWritten([Array([Number(1.0)]), Number(1.0), Number(100000000000000000000.0)]) == None
    ensures Slice([Array([Number(1.0)]), Number(1.0), Number(100000000000000000000.0)]) == Ok(Array([]))
  {
    IndexOfNat(1);
    assert ToUsize(100000000000000000000.0) == UsizeMax;
    assert SliceEnd(1, UsizeMax, 1) == 1;
    assert [Number(1.0)][1..1] == [];
  }

  /** On ASCII text bytes and characters coincide, and the code as written
      and the model agree. */
  lemma GetAgreesOnAscii(args: seq<Value>)
    requires |args| >= 2 && (args[0].String? ==> IsAscii(args[0].s))
    ensures GetAsWritten(args) == Some(Get(args))
  {
    if args[0].String? {
      AsciiLength(args[0].s);
    }
  }

  lemma SetAgreesOnAscii(args: seq<Value>)
    requires |args| >= 2 && (SetReadsValue(args) ==> |args| >= 3)
    requires args[0].String? ==> IsAscii(args[0].s)
    requires SetReadsValue(args) && args[2].String? ==> IsAscii(args[2].s)
    ensures SetAsWritten(args) == Some(Set(args))
  {
    if args[0].String? {
      AsciiLength(args[0].s);
      if SetReadsValue(args) && args[2].String? {
        AsciiLength(args[2].s);
      }
    }
  }

  /** Without a length, or with one that keeps `start + length` within a
      `usize`, slicing ASCII text or any Array agrees with the model. */
  lemma SliceAgreesOnAscii(args: seq<Value>)
    requires 2 <= |args| <= 3 && args[1].Number?
    requires args[0].String? ==> IsAscii(args[0].s)
    requires |args| == 3 && args[2].Number? ==> ToUsize(args[1].n) + ToUsize(args[2].n) <= UsizeMax
    ensures SliceAsWritten(args) == Some(Slice(args))
  {
    if args[0].String? {
      AsciiLength(args[0].s);
    }
  }
}
