/**
 * Rendering of the object-relational `CREATE TABLE <name> OF <type> (...)` statement
 * of a type table (schemaframework.TypeTableDefinition).
 *
 * The statement is specified twice: `CreationWrites` lists the individual `write`
 * calls in the order they are issued (which is what decides how much text reaches the
 * writer before an I/O failure), and `CreationStatement` states the whole text
 * declaratively. `CreationWritesConcat` connects the two.
 */
module SchemaFramework {
  import opened Wrappers
  import opened Exceptions

  // ---------------------------------------------------------------------------
  // Sequences of writes
  // ---------------------------------------------------------------------------

  /** The text produced by the first `n` of a sequence of writes, in order. */
  function Written(pieces: seq<string>, n: nat): string
    requires n <= |pieces|
  {
    if n == 0 then "" else Written(pieces, n - 1) + pieces[n - 1]
  }

  /** The text produced by a sequence of writes. */
  function Concat(pieces: seq<string>): string
  {
    Written(pieces, |pieces|)
  }

  /** The first `k` writes decide what they produce. */
  lemma {:induction false} WrittenAgree(a: seq<string>, b: seq<string>, k: nat)
    requires k <= |a| && k <= |b|
    requires forall j :: 0 <= j < k ==> a[j] == b[j]
    ensures Written(a, k) == Written(b, k)
  {
    if k > 0 {
      WrittenAgree(a, b, k - 1);
    }
  }

  lemma {:induction false} WrittenAppend(a: seq<string>, b: seq<string>, j: nat)
    requires j <= |b|
    ensures Written(a + b, |a| + j) == Concat(a) + Written(b, j)
  {
    if j == 0 {
      WrittenAgree(a + b, a, |a|);
    } else {
      WrittenAppend(a, b, j - 1);
      assert (a + b)[|a| + j - 1] == b[j - 1];
    }
  }

  lemma {:induction false} ConcatAppend(a: seq<string>, b: seq<string>)
    ensures Concat(a + b) == Concat(a) + Concat(b)
  {
    WrittenAppend(a, b, |b|);
  }

  lemma {:induction false} ConcatSingle(x: string)
    ensures Concat([x]) == x
  {
    assert Written([x], 0) == "";
  }

  // ---------------------------------------------------------------------------
  // The primary-key list
  // ---------------------------------------------------------------------------

  /** Key field names in list order, separated by ", ". */
  function Join(keys: seq<string>): string
  {
    if |keys| == 0 then ""
    else if |keys| == 1 then keys[0]
    else keys[0] + ", " + Join(keys[1..])
  }

  /** Appending a key appends exactly one separator and the key: no trailing separator. */
  lemma {:induction false} JoinSnoc(keys: seq<string>, k: string)
    requires |keys| > 0
    ensures Join(keys + [k]) == Join(keys) + ", " + k
    decreases |keys|
  {
    if |keys| == 1 {
      assert (keys + [k])[1..] == [k];
    } else {
      assert (keys + [k])[1..] == keys[1..] + [k];
      JoinSnoc(keys[1..], k);
    }
  }

  /** Splits a rendered key list back into names at each ", " (the inverse of `Join`). */
  function SplitKeys(s: string): (r: seq<string>)
    ensures |r| > 0
    decreases |s|
  {
    if |s| == 0 then [""]
    else if |s| >= 2 && s[0] == ',' && s[1] == ' ' then [""] + SplitKeys(s[2..])
    else
      var t := SplitKeys(s[1..]);
      [[s[0]] + t[0]] + t[1..]
  }

  lemma {:induction false} SplitPlain(k: string, rest: string)
    requires ',' !in k
    ensures SplitKeys(k + rest)[0] == k + SplitKeys(rest)[0]
    ensures SplitKeys(k + rest)[1..] == SplitKeys(rest)[1..]
    decreases |k|
  {
    if |k| == 0 {
      assert k + rest == rest;
    } else {
      var s := k + rest;
      var c := k[0];
      assert c in k;
      assert s[0] == c && c != ',';
      assert s[1..] == k[1..] + rest;
      assert ',' !in k[1..] by {
        forall x | x in k[1..] ensures x != ',' {
          assert x in k;
        }
      }
      SplitPlain(k[1..], rest);
      var t := SplitKeys(s[1..]);
      assert SplitKeys(s) == [[c] + t[0]] + t[1..];
      assert [c] + k[1..] == k;
    }
  }

  /** Round trip: a non-empty list of comma-free names is recovered from its rendering. */
  lemma {:induction false} SplitJoin(keys: seq<string>)
    requires |keys| > 0
    requires forall i :: 0 <= i < |keys| ==> ',' !in keys[i]
    ensures SplitKeys(Join(keys)) == keys
    decreases |keys|
  {
    if |keys| == 1 {
      SplitPlain(keys[0], "");
      assert keys[0] + "" == keys[0];
    } else {
      var tail := Join(keys[1..]);
      assert Join(keys) == keys[0] + (", " + tail);
      SplitPlain(keys[0], ", " + tail);
      assert (", " + tail)[2..] == tail;
      assert SplitKeys(", " + tail) == [""] + SplitKeys(tail);
      SplitJoin(keys[1..]);
      var r := SplitKeys(Join(keys));
      assert r[0] == keys[0] + "" == keys[0];
      assert r[1..] == keys[1..];
      assert r == [r[0]] + r[1..];
      assert keys == [keys[0]] + keys[1..];
    }
  }

  /** The writes the key loop issues for the first `i` keys: each name, then ", " when another key follows. */
  function KeyWrites(keys: seq<string>, i: nat): seq<string>
    requires i <= |keys|
  {
    if i == 0 then []
    else KeyWrites(keys, i - 1) + [keys[i - 1]] + (if i < |keys| then [", "] else [])
  }

  lemma {:induction false} KeyWritesPrefix(keys: seq<string>, i: nat, j: nat)
    requires i <= j <= |keys|
    ensures KeyWrites(keys, i) <= KeyWrites(keys, j)
    decreases j - i
  {
    if i < j {
      KeyWritesPrefix(keys, i, j - 1);
    }
  }

  /** What the key loop has written after `i` keys: the joined prefix, plus a separator while keys remain. */
  lemma {:induction false} KeyWritesJoin(keys: seq<string>, i: nat)
    requires 0 < i <= |keys|
    ensures Concat(KeyWrites(keys, i)) == Join(keys[..i]) + (if i < |keys| then ", " else "")
    decreases i
  {
    var prev := KeyWrites(keys, i - 1);
    var k := keys[i - 1];
    var sep: seq<string> := if i < |keys| then [", "] else [];
    var sepText := if i < |keys| then ", " else "";
    assert KeyWrites(keys, i) == prev + [k] + sep;
    ConcatAppend(prev + [k], sep);
    ConcatAppend(prev, [k]);
    ConcatSingle(k);
    ConcatSingle(", ");
    assert Concat(sep) == sepText;
    assert Concat(KeyWrites(keys, i)) == Concat(prev) + k + sepText;
    if i == 1 {
      assert keys[..1] == [k];
    } else {
      KeyWritesJoin(keys, i - 1);
      assert keys[..i] == keys[..i - 1] + [k];
      JoinSnoc(keys[..i - 1], k);
    }
  }

  // ---------------------------------------------------------------------------
  // The statement
  // ---------------------------------------------------------------------------

  /** The `PRIMARY KEY (...)` clause is rendered only for a non-empty key list on a supporting platform. */
  predicate EmitsPrimaryKey(keys: seq<string>, supportsPrimaryKeyConstraint: bool)
  {
    |keys| > 0 && supportsPrimaryKeyConstraint
  }

  function Header(fullName: string, typeName: string): string
  {
    "CREATE TABLE " + fullName + " OF " + typeName + " ("
  }

  /** The complete statement text. */
  function CreationStatement(fullName: string, typeName: string, keys: seq<string>,
                             supportsPrimaryKeyConstraint: bool, additional: string): string
  {
    Header(fullName, typeName)
    + (if EmitsPrimaryKey(keys, supportsPrimaryKeyConstraint) then "PRIMARY KEY (" + Join(keys) + ")" else "")
    + ")" + additional
  }

  /** The `write` calls that render the primary-key clause. */
  function PrimaryKeyWrites(keys: seq<string>): seq<string>
  {
    ["PRIMARY KEY ("] + KeyWrites(keys, |keys|) + [")"]
  }

  /** The `write` calls that render the statement, in the order they are issued. */
  function CreationWrites(fullName: string, typeName: string, keys: seq<string>,
                          supportsPrimaryKeyConstraint: bool, additional: string): seq<string>
  {
    [Header(fullName, typeName)]
    + (if EmitsPrimaryKey(keys, supportsPrimaryKeyConstraint) then PrimaryKeyWrites(keys) else [])
    + [")", additional]
  }

  /** Where each part of the statement sits among the writes. */
  lemma {:induction false} CreationWritesLayout(fullName: string, typeName: string, keys: seq<string>,
                             supportsPrimaryKeyConstraint: bool, additional: string)
    ensures var plan := CreationWrites(fullName, typeName, keys, supportsPrimaryKeyConstraint, additional);
            var mid := if EmitsPrimaryKey(keys, supportsPrimaryKeyConstraint) then PrimaryKeyWrites(keys) else [];
            && |plan| == |mid| + 3
            && plan[0] == Header(fullName, typeName)
            && plan[1..1 + |mid|] == mid
            && plan[1 + |mid|] == ")"
            && plan[2 + |mid|] == additional
  {
  }

  /** The clause's writes produce `PRIMARY KEY (`, the joined names and `)`. */
  lemma {:induction false} PrimaryKeyWritesConcat(keys: seq<string>)
    requires |keys| > 0
    ensures Concat(PrimaryKeyWrites(keys)) == "PRIMARY KEY (" + Join(keys) + ")"
  {
    var kw := KeyWrites(keys, |keys|);
    ConcatAppend(["PRIMARY KEY ("] + kw, [")"]);
    ConcatAppend(["PRIMARY KEY ("], kw);
    ConcatSingle("PRIMARY KEY (");
    ConcatSingle(")");
    KeyWritesJoin(keys, |keys|);
    assert keys[..|keys|] == keys;
  }

  /** Issuing all the writes produces exactly the statement. */
  lemma {:induction false} CreationWritesConcat(fullName: string, typeName: string, keys: seq<string>,
                             supportsPrimaryKeyConstraint: bool, additional: string)
    ensures Concat(CreationWrites(fullName, typeName, keys, supportsPrimaryKeyConstraint, additional))
         == CreationStatement(fullName, typeName, keys, supportsPrimaryKeyConstraint, additional)
  {
    var h := [Header(fullName, typeName)];
    var t := [")", additional];
    var emits := EmitsPrimaryKey(keys, supportsPrimaryKeyConstraint);
    var mid := if emits then PrimaryKeyWrites(keys) else [];
    var clause := if emits then "PRIMARY KEY (" + Join(keys) + ")" else "";
    assert CreationWrites(fullName, typeName, keys, supportsPrimaryKeyConstraint, additional) == h + mid + t;
    ConcatAppend(h + mid, t);
    ConcatAppend(h, mid);
    ConcatSingle(Header(fullName, typeName));
    assert Concat(t) == ")" + additional by {
      assert t == [")"] + [additional];
      ConcatAppend([")"], [additional]);
      ConcatSingle(")");
      ConcatSingle(additional);
    }
    if emits {
      PrimaryKeyWritesConcat(keys);
    }
    assert Concat(mid) == clause;
  }

  /**
   * The shape of the statement: the fixed header, then the primary-key clause exactly
   * when `EmitsPrimaryKey` holds (otherwise an empty body `()`), then `)` and the
   * trailing fragment verbatim.
   */
  lemma {:induction false} StatementShape(fullName: string, typeName: string, keys: seq<string>,
                       supportsPrimaryKeyConstraint: bool, additional: string)
    ensures var s := CreationStatement(fullName, typeName, keys, supportsPrimaryKeyConstraint, additional);
            var h := Header(fullName, typeName);
            && h <= s
            && (EmitsPrimaryKey(keys, supportsPrimaryKeyConstraint) <==> "PRIMARY KEY (" <= s[|h|..])
            && (EmitsPrimaryKey(keys, supportsPrimaryKeyConstraint) ==> s[|h|..] == "PRIMARY KEY (" + Join(keys) + "))" + additional)
            && (!EmitsPrimaryKey(keys, supportsPrimaryKeyConstraint) ==> s[|h|..] == ")" + additional)
            && s[|s| - |additional| - 1..] == ")" + additional
  {
    var s := CreationStatement(fullName, typeName, keys, supportsPrimaryKeyConstraint, additional);
    var h := Header(fullName, typeName);
    if EmitsPrimaryKey(keys, supportsPrimaryKeyConstraint) {
      var body := "PRIMARY KEY (" + Join(keys) + "))" + additional;
      assert s == h + body;
      assert s[|h|..] == body;
      assert body[..13] == "PRIMARY KEY (";
    } else {
      assert s == h + (")" + additional);
      assert s[|h|..] == ")" + additional;
      assert s[|h|..][0] == ')';
    }
  }

  /** A table `T` of type `T_TYPE` keyed by `ID`, on a platform with primary-key constraints. */
  lemma {:induction false} ExampleWithKey()
    ensures CreationStatement("T", "T_TYPE", ["ID"], true, "") == "CREATE TABLE T OF T_TYPE (PRIMARY KEY (ID))"
  {
  }

  /** The same table on a platform without primary-key constraints: an empty body. */
  lemma {:induction false} ExampleWithoutSupport()
    ensures CreationStatement("T", "T_TYPE", ["ID"], false, "") == "CREATE TABLE T OF T_TYPE ()"
  {
  }

  /** No key fields: an empty body whatever the platform supports. */
  lemma {:induction false} ExampleWithoutKeys(supportsPrimaryKeyConstraint: bool)
    ensures CreationStatement("T", "T_TYPE", [], supportsPrimaryKeyConstraint, "") == "CREATE TABLE T OF T_TYPE ()"
  {
  }

  /** A trailing fragment follows the closing parenthesis verbatim. */
  lemma {:induction false} ExampleWithAdditional()
    ensures CreationStatement("T", "T_TYPE", ["ID"], true, " NESTED TABLE x STORE AS y")
         == "CREATE TABLE T OF T_TYPE (PRIMARY KEY (ID)) NESTED TABLE x STORE AS y"
  {
    var tail := " NESTED TABLE x STORE AS y";
    assert CreationStatement("T", "T_TYPE", ["ID"], true, tail) == CreationStatement("T", "T_TYPE", ["ID"], true, "") + tail;
    ExampleWithKey();
  }

  // ---------------------------------------------------------------------------
  // The writer
  // ---------------------------------------------------------------------------

  /** A budget after `n` successful writes. */
  function Spend(budget: Option<nat>, n: nat): Option<nat>
    requires budget.Some? ==> n <= budget.value
  {
    if budget.None? then None else Some(budget.value - n)
  }

  /** How many of `total` consecutive writes succeed against `budget` before the first failure. */
  function Succeeding(budget: Option<nat>, total: nat): nat
  {
    if budget.Some? && budget.value < total then budget.value else total
  }

  /**
   * A `java.io.Writer`: an append-only character buffer. `budget` is the number of
   * further writes that succeed (`None`: every write succeeds); once it is spent,
   * every write throws an `IOException` and appends nothing.
   */
  class Writer {
    var contents: string
    var budget: Option<nat>

    constructor (budget: Option<nat>)
      ensures contents == [] && this.budget == budget
    {
      contents := [];
      this.budget := budget;
    }

    method Write(s: string) returns (err: Option<IOException>)
      modifies this
      ensures err.None? <==> old(budget) != Some(0)
      ensures err.None? ==> contents == old(contents) + s && budget == Spend(old(budget), 1)
      ensures err.Some? ==> contents == old(contents) && budget == old(budget) && err.value == IOException(s)
    {
      if budget == Some(0) {
        err := Some(IOException(s));
      } else {
        contents := contents + s;
        budget := Spend(budget, 1);
        err := None;
      }
    }
  }

  /** The first `n` of the planned writes, started from `base` and `budget0`, have all succeeded. */
  ghost predicate Progress(writer: Writer, base: string, budget0: Option<nat>, plan: seq<string>, n: nat)
    reads writer
  {
    n <= |plan|
    && n <= Succeeding(budget0, |plan|)
    && writer.contents == base + Written(plan, n)
    && writer.budget == Spend(budget0, n)
  }

  /** The planned writes stopped at the first one the budget does not allow, which raised `e`. */
  ghost predicate Stopped(writer: Writer, base: string, budget0: Option<nat>, plan: seq<string>, e: IOException)
    reads writer
  {
    var d := Succeeding(budget0, |plan|);
    d < |plan| && Progress(writer, base, budget0, plan, d) && e == IOException(plan[d])
  }

  /** Issues planned write number `n`. */
  method Emit(writer: Writer, s: string,
              ghost base: string, ghost budget0: Option<nat>, ghost plan: seq<string>, ghost n: nat)
    returns (err: Option<IOException>)
    requires n < |plan| && plan[n] == s
    requires Progress(writer, base, budget0, plan, n)
    modifies writer
    ensures err.None? ==> Progress(writer, base, budget0, plan, n + 1)
    ensures err.Some? ==> Stopped(writer, base, budget0, plan, err.value)
  {
    err := writer.Write(s);
  }

  /** Key `i` is the write right after those for the keys before it, followed by ", " unless it is the last. */
  lemma {:induction false} KeyWritesStep(keys: seq<string>, i: nat)
    requires i < |keys|
    ensures var kw := KeyWrites(keys, |keys|);
            var m := |KeyWrites(keys, i)|;
            && m < |kw| && kw[m] == keys[i]
            && |KeyWrites(keys, i + 1)| == m + (if i + 1 < |keys| then 2 else 1)
            && (i + 1 < |keys| ==> m + 1 < |kw| && kw[m + 1] == ", ")
  {
    KeyWritesPrefix(keys, i + 1, |keys|);
  }

  lemma {:induction false} SliceAt(plan: seq<string>, offset: nat, part: seq<string>, j: nat)
    requires offset + |part| <= |plan| && plan[offset..offset + |part|] == part && j < |part|
    ensures plan[offset + j] == part[j]
  {
    assert plan[offset..offset + |part|][j] == plan[offset + j];
  }

  /** One turn of the key loop: key `i`, then ", " when another key follows. */
  method WriteKeyField(writer: Writer, keyFields: seq<string>, i: nat,
                       ghost base: string, ghost budget0: Option<nat>, ghost plan: seq<string>, ghost offset: nat)
    returns (err: Option<IOException>)
    requires i < |keyFields|
    requires offset + |KeyWrites(keyFields, |keyFields|)| <= |plan|
    requires plan[offset..offset + |KeyWrites(keyFields, |keyFields|)|] == KeyWrites(keyFields, |keyFields|)
    requires Progress(writer, base, budget0, plan, offset + |KeyWrites(keyFields, i)|)
    modifies writer
    ensures err.None? ==> Progress(writer, base, budget0, plan, offset + |KeyWrites(keyFields, i + 1)|)
    ensures err.Some? ==> Stopped(writer, base, budget0, plan, err.value)
  {
    ghost var kw := KeyWrites(keyFields, |keyFields|);
    ghost var m := |KeyWrites(keyFields, i)|;
    KeyWritesStep(keyFields, i);
    SliceAt(plan, offset, kw, m);
    err := Emit(writer, keyFields[i], base, budget0, plan, offset + m);
    if err.Some? {
      return;
    }
    if i + 1 < |keyFields| {
      SliceAt(plan, offset, kw, m + 1);
      err := Emit(writer, ", ", base, budget0, plan, offset + m + 1);
    }
  }

  /**
   * The key loop: writes each key field name and, while another one follows, ", ".
   * The planned writes from `offset` on are the loop's writes.
   */
  method WriteKeyFields(writer: Writer, keyFields: seq<string>,
                        ghost base: string, ghost budget0: Option<nat>, ghost plan: seq<string>, ghost offset: nat)
    returns (err: Option<IOException>)
    requires offset + |KeyWrites(keyFields, |keyFields|)| <= |plan|
    requires plan[offset..offset + |KeyWrites(keyFields, |keyFields|)|] == KeyWrites(keyFields, |keyFields|)
    requires Progress(writer, base, budget0, plan, offset)
    modifies writer
    ensures err.None? ==> Progress(writer, base, budget0, plan, offset + |KeyWrites(keyFields, |keyFields|)|)
    ensures err.Some? ==> Stopped(writer, base, budget0, plan, err.value)
  {
    var i := 0;
    while i < |keyFields|
      invariant 0 <= i <= |keyFields|
      invariant Progress(writer, base, budget0, plan, offset + |KeyWrites(keyFields, i)|)
    {
      err := WriteKeyField(writer, keyFields, i, base, budget0, plan, offset);
      if err.Some? {
        return;
      }
      i := i + 1;
    }
    err := None;
  }

  /** `PRIMARY KEY (`, the key loop, then `)`; the planned writes from `offset` on are these. */
  method WritePrimaryKeyClause(writer: Writer, keyFields: seq<string>,
                               ghost base: string, ghost budget0: Option<nat>, ghost plan: seq<string>, ghost offset: nat)
    returns (err: Option<IOException>)
    requires offset + |PrimaryKeyWrites(keyFields)| <= |plan|
    requires plan[offset..offset + |PrimaryKeyWrites(keyFields)|] == PrimaryKeyWrites(keyFields)
    requires Progress(writer, base, budget0, plan, offset)
    modifies writer
    ensures err.None? ==> Progress(writer, base, budget0, plan, offset + |PrimaryKeyWrites(keyFields)|)
    ensures err.Some? ==> Stopped(writer, base, budget0, plan, err.value)
  {
    ghost var pkw := PrimaryKeyWrites(keyFields);
    ghost var kw := KeyWrites(keyFields, |keyFields|);
    assert plan[offset] == pkw[0];
    err := Emit(writer, "PRIMARY KEY (", base, budget0, plan, offset);
    if err.Some? {
      return;
    }
    assert |pkw| == |kw| + 2 && pkw[1..1 + |kw|] == kw;
    assert plan[offset + 1..offset + 1 + |kw|] == plan[offset..offset + |pkw|][1..1 + |kw|];
    err := WriteKeyFields(writer, keyFields, base, budget0, plan, offset + 1);
    if err.Some? {
      return;
    }
    assert plan[offset + 1 + |kw|] == pkw[1 + |kw|] == ")";
    err := Emit(writer, ")", base, budget0, plan, offset + 1 + |kw|);
  }

  // ---------------------------------------------------------------------------
  // The type table definition
  // ---------------------------------------------------------------------------

  /**
   * A table of an object-relational user-defined type. The table's full name, its
   * primary-key field names and the platform's support for primary-key constraints
   * come from the superclass and the session, and are passed in.
   */
  class TypeTableDefinition {
    /** The name of the type that this table is of. */
    var typeName: string
    /** Free-form DDL appended after the closing parenthesis. */
    var additional: string

    constructor ()
      ensures typeName == "" && additional == ""
    {
      typeName := "";
      additional := "";
    }

    method GetAdditional() returns (r: string)
      ensures r == additional
    {
      r := additional;
    }

    method GetTypeName() returns (r: string)
      ensures r == typeName
    {
      r := typeName;
    }

    method SetAdditional(additional: string)
      modifies this
      ensures this.additional == additional && typeName == old(typeName)
    {
      this.additional := additional;
    }

    method SetTypeName(typeName: string)
      modifies this
      ensures this.typeName == typeName && additional == old(additional)
    {
      this.typeName := typeName;
    }

    /**
     * Appends the creation statement to `writer` and returns the same writer. Every
     * write before the failing one has reached the writer; the failure is reported as
     * a `fileError` carrying the `IOException`.
     */
    method BuildCreationWriter(fullName: string, keyFields: seq<string>, supportsPrimaryKeyConstraint: bool,
                               writer: Writer)
      returns (r: Result<Writer, ValidationException>)
      modifies writer
      ensures var plan := CreationWrites(fullName, typeName, keyFields, supportsPrimaryKeyConstraint, additional);
              var done := Succeeding(old(writer.budget), |plan|);
              && done <= |plan|
              && writer.contents == old(writer.contents) + Written(plan, done)
              && writer.budget == Spend(old(writer.budget), done)
              && (r.Success? <==> done == |plan|)
              && (r.Success? ==> r.value == writer)
              && (r.Failure? ==> done < |plan| && r.error == FileError(IOException(plan[done])))
      ensures old(writer.contents) <= writer.contents
      ensures r.Success? ==>
                writer.contents == old(writer.contents)
                  + CreationStatement(fullName, typeName, keyFields, supportsPrimaryKeyConstraint, additional)
    {
      ghost var base, budget0 := writer.contents, writer.budget;
      ghost var plan := CreationWrites(fullName, typeName, keyFields, supportsPrimaryKeyConstraint, additional);
      ghost var n := 0;
      var failure: Option<IOException> := None;
      ghost var mid := if EmitsPrimaryKey(keyFields, supportsPrimaryKeyConstraint) then PrimaryKeyWrites(keyFields) else [];
      CreationWritesLayout(fullName, typeName, keyFields, supportsPrimaryKeyConstraint, additional);
      label rendering: {
        var err := Emit(writer, "CREATE TABLE " + fullName + " OF " + typeName + " (", base, budget0, plan, n);
        if err.Some? {
          failure := err;
          break rendering;
        }
        n := n + 1;
        if |keyFields| > 0 && supportsPrimaryKeyConstraint {
          err := WritePrimaryKeyClause(writer, keyFields, base, budget0, plan, n);
          if err.Some? {
            failure := err;
            break rendering;
          }
          n := n + |mid|;
        }
        assert n == 1 + |mid|;
        err := Emit(writer, ")", base, budget0, plan, n);
        if err.Some? {
          failure := err;
          break rendering;
        }
        n := n + 1;
        err := Emit(writer, additional, base, budget0, plan, n);
        if err.Some? {
          failure := err;
          break rendering;
        }
        n := n + 1;
      }
      if failure.Some? {
        r := Failure(FileError(failure.value));
      } else {
        assert n == |plan|;
        CreationWritesConcat(fullName, typeName, keyFields, supportsPrimaryKeyConstraint, additional);
        r := Success(writer);
      }
    }
  }
}
