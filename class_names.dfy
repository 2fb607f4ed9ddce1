/** `classNames(...classes)`: the class-string builder used by every
    component. Strings are kept verbatim, an object contributes its `class`
    when its `condition` is truthy, anything else is skipped, and the kept
    entries are joined by single spaces. A `null` argument passes the
    `typeof === "object"` test and reading its `condition` throws. */
module ClassNames {
  import opened Js

  /** What one argument contributes, assuming it is not null. */
  function Contribution(entry: Value): seq<string> {
    match entry
    case Str(s) => [s]
    case Obj(_) =>
      if Truthy(OptGet(entry, "condition")) then [JoinText(OptGet(entry, "class"))] else []
    case Elem(_) => []
    case _ => []
  }

  /** The kept entries of `classes`, in argument order. */
  function Entries(classes: seq<Value>): (r: seq<string>)
    decreases |classes|
  {
    if classes == [] then []
    else Entries(classes[..|classes| - 1]) + Contribution(classes[|classes| - 1])
  }

  predicate HasNull(classes: seq<Value>) {
    exists i :: 0 <= i < |classes| && classes[i].Null?
  }

  /** `Array.prototype.join(" ")`. */
  function Join(parts: seq<string>): (r: string)
    ensures parts == [] ==> r == ""
    ensures |parts| == 1 ==> r == parts[0]
  {
    if parts == [] then ""
    else if |parts| == 1 then parts[0]
    else parts[0] + " " + Join(parts[1..])
  }

  /** `String.prototype.split(" ")`: always at least one piece. */
  function Split(s: string): (r: seq<string>)
    ensures |r| >= 1
    decreases |s|
  {
    if s == [] then [""]
    else if s[0] == ' ' then [""] + Split(s[1..])
    else var rest := Split(s[1..]); [[s[0]] + rest[0]] + rest[1..]
  }

  /** The value `classNames` returns, as used by the component models. */
  function ClassString(classes: seq<Value>): (r: Result<string>)
    ensures r.TypeError? <==> HasNull(classes)
  {
    if HasNull(classes) then TypeError else Ok(Join(Entries(classes)))
  }

  /** The loop over the arguments, pushing onto `finalClasses`, then the join. */
  method Build(classes: seq<Value>) returns (r: Result<string>)
    ensures HasNull(classes) ==> r == TypeError
    ensures !HasNull(classes) ==> r == Ok(Join(Entries(classes)))
  {
    var finalClasses: seq<string> := [];
    var i := 0;
    while i < |classes|
      invariant 0 <= i <= |classes|
      invariant finalClasses == Entries(classes[..i])
      invariant forall j :: 0 <= j < i ==> !classes[j].Null?
    {
      var entry := classes[i];
      if entry.Str? {
        finalClasses := finalClasses + [entry.s];
      } else if TypeOf(entry) == "object" {
        if entry.Null? {
          // reading `null.condition`
          return TypeError;
        }
        if Truthy(OptGet(entry, "condition")) {
          finalClasses := finalClasses + [JoinText(OptGet(entry, "class"))];
        }
      }
      assert classes[..i + 1][..i] == classes[..i];
      i := i + 1;
    }
    assert classes[..i] == classes;
    r := Ok(Join(finalClasses));
  }

  /** The entries of a concatenation are the concatenation of the entries:
      the kept entries appear in argument order. */
  lemma {:induction false} EntriesConcat(a: seq<Value>, b: seq<Value>)
    ensures Entries(a + b) == Entries(a) + Entries(b)
    decreases |b|
  {
    if b == [] {
      assert a + b == a;
    } else {
      var b' := b[..|b| - 1];
      assert (a + b)[..|a + b| - 1] == a + b';
      assert (a + b)[|a + b| - 1] == b[|b| - 1];
      assert Entries(a + b) == Entries(a + b') + Contribution(b[|b| - 1]);
      assert Entries(b) == Entries(b') + Contribution(b[|b| - 1]);
      EntriesConcat(a, b');
    }
  }

  /** Strings are kept verbatim (the empty string included) and an object
      contributes exactly when its condition is truthy. */
  lemma EntryOfOne(entry: Value)
    requires !entry.Null?
    ensures entry.Str? ==> Entries([entry]) == [entry.s]
    ensures entry.Obj? ==> (Entries([entry]) != [] <==> Truthy(OptGet(entry, "condition")))
    ensures (entry.Obj? && Truthy(OptGet(entry, "condition")))
              ==> Entries([entry]) == [JoinText(OptGet(entry, "class"))]
    ensures !entry.Str? && !entry.Obj? ==> Entries([entry]) == []
  {
    assert [entry][..0] == [];
  }

  predicate Skipped(v: Value) {
    !v.Str? && !v.Obj? && !v.Null?
  }

  /** Arguments that are neither strings nor objects contribute nothing, so the
      result is the empty string. */
  lemma {:induction false} SkippedContributeNothing(classes: seq<Value>)
    requires forall i :: 0 <= i < |classes| ==> Skipped(classes[i])
    ensures Entries(classes) == []
    ensures ClassString(classes) == Ok("")
    decreases |classes|
  {
    if classes != [] {
      SkippedContributeNothing(classes[..|classes| - 1]);
    }
  }

  predicate NoSpace(parts: seq<string>) {
    forall i :: 0 <= i < |parts| ==> ' ' !in parts[i]
  }

  lemma {:induction false} SplitPrefix(p: string, rest: string)
    requires ' ' !in p
    ensures Split(p + " " + rest) == [p] + Split(rest)
    decreases |p|
  {
    if p == [] {
      assert p + " " + rest == [' '] + rest;
      assert (p + " " + rest)[1..] == rest;
    } else {
      assert (p + " " + rest)[1..] == p[1..] + " " + rest;
      SplitPrefix(p[1..], rest);
      assert [p[0]] + p[1..] == p;
    }
  }

  lemma {:induction false} SplitWord(p: string)
    requires ' ' !in p
    ensures Split(p) == [p]
    decreases |p|
  {
    if p != [] {
      SplitWord(p[1..]);
      assert [p[0]] + p[1..] == p;
    }
  }

  /** The join is by single spaces: when no kept entry contains a space,
      splitting the result at spaces gives back the entries. */
  lemma {:induction false} SplitJoin(parts: seq<string>)
    requires parts != []
    requires NoSpace(parts)
    ensures Split(Join(parts)) == parts
    decreases |parts|
  {
    if |parts| == 1 {
      SplitWord(parts[0]);
    } else {
      assert ' ' !in parts[0];
      SplitPrefix(parts[0], Join(parts[1..]));
      SplitJoin(parts[1..]);
    }
  }

  /** Three arguments contribute in turn. */
  lemma EntriesOfThree(a: Value, b: Value, c: Value)
    ensures Entries([a, b, c]) == Contribution(a) + Contribution(b) + Contribution(c)
    ensures HasNull([a, b, c]) <==> a.Null? || b.Null? || c.Null?
  {
    assert [a, b, c][..2] == [a, b];
    assert [a, b][..1] == [a];
    assert [a][..0] == [];
    assert Entries([a]) == Contribution(a);
    assert Entries([a, b]) == Contribution(a) + Contribution(b);
    if a.Null? || b.Null? || c.Null? {
      var i := if a.Null? then 0 else if b.Null? then 1 else 2;
      assert [a, b, c][i].Null?;
    }
  }

  /** An empty string argument yields a doubled space. */
  lemma EmptyStringDoublesSpace()
    ensures ClassString([Str("a"), Str(""), Str("b")]) == Ok("a  b")
  {
    EntriesOfThree(Str("a"), Str(""), Str("b"));
    assert ["a", "", "b"][1..] == ["", "b"];
    assert ["", "b"][1..] == ["b"];
    assert Join(["a", "", "b"]) == "a" + " " + ("" + " " + "b") == "a  b";
  }

  /** Two string arguments are joined by one space. */
  lemma TwoStrings(a: string, b: Value)
    requires b.Str?
    ensures ClassString([Str(a), b]) == Ok(a + " " + b.s)
  {
    assert !HasNull([Str(a), b]) by {
      assert forall i :: 0 <= i < 2 ==> !([Str(a), b][i].Null?);
    }
    assert [Str(a), b][..1] == [Str(a)];
    assert [Str(a)][..0] == [];
    assert Entries([Str(a)]) == [a];
    assert Entries([Str(a), b]) == [a, b.s];
    assert [a, b.s][1..] == [b.s];
  }

  /** Appending one argument appends its contribution. */
  lemma EntriesSnoc(classes: seq<Value>, last: Value)
    ensures Entries(classes + [last]) == Entries(classes) + Contribution(last)
  {
    assert (classes + [last])[..|classes|] == classes;
  }

  /** A class name that the join keeps as one space-free word. */
  predicate Word(v: Value) {
    v.Str? && v.s != "" && ' ' !in v.s
  }

  /** What a word or a skipped argument contributes. */
  function WordOf(v: Value): (r: seq<string>)
    ensures NoSpace(r)
  {
    if Word(v) then [v.s] else []
  }

  /** For three arguments that are each a word or skipped, splitting the class
      string at spaces gives back the words, in argument order. */
  lemma SplitThree(a: Value, b: Value, c: Value)
    requires Word(a) || Skipped(a)
    requires Word(b) || Skipped(b)
    requires Word(c) || Skipped(c)
    requires WordOf(a) + WordOf(b) + WordOf(c) != []
    ensures ClassString([a, b, c]) == Ok(Join(WordOf(a) + WordOf(b) + WordOf(c)))
    ensures Split(ClassString([a, b, c]).value) == WordOf(a) + WordOf(b) + WordOf(c)
  {
    EntriesOfThree(a, b, c);
    var words := WordOf(a) + WordOf(b) + WordOf(c);
    assert NoSpace(words) by {
      forall i | 0 <= i < |words| ensures ' ' !in words[i] {
        if i < |WordOf(a)| {
          assert words[i] == WordOf(a)[i];
        } else if i < |WordOf(a)| + |WordOf(b)| {
          assert words[i] == WordOf(b)[i - |WordOf(a)|];
        } else {
          assert words[i] == WordOf(c)[i - |WordOf(a)| - |WordOf(b)|];
        }
      }
    }
    SplitJoin(words);
  }

  /** Two words and an optional third: the shape of every component's
      container class list. */
  lemma SplitTwoWordsAndOptional(a: Value, b: Value, c: Value)
    requires Word(a) && Word(b)
    requires Word(c) || c.Undefined?
    ensures ClassString([a, b, c]).Ok?
    ensures Split(ClassString([a, b, c]).value) == [a.s, b.s] + (if c.Undefined? then [] else [c.s])
  {
    SplitThree(a, b, c);
    assert WordOf(c) == (if c.Undefined? then [] else [c.s]);
  }
}
