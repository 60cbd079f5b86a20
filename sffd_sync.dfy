/** The pure core of the emergency-call sync job: the upsert statement built
    from the table's column list, and the cleaning of one API record into a
    row of column values. */
module SffdSync {
  import opened Strings
  import opened JsonValues

  /** The table the job writes. */
  const TABLE := "emergence.emergency_calls"

  /** The default primary-key columns. */
  const PKS := ["call_number", "unit_id"]

  // ----- make_upsert_sql -----

  /** The columns of `cols` that are not keys, in `cols` order. */
  function NonKeyColumns(cols: seq<string>, pks: seq<string>): (r: seq<string>)
    ensures |r| <= |cols|
    ensures forall c :: c in r <==> c in cols && c !in pks
  {
    if cols == [] then []
    else
      var rest := NonKeyColumns(cols[1..], pks);
      assert forall c :: c in cols <==> c == cols[0] || c in cols[1..];
      if cols[0] in pks then rest else [cols[0]] + rest
  }

  /** Filtering keeps the order: the non-key columns of two consecutive
      column lists are those of the first followed by those of the second. */
  lemma {:induction false} NonKeyColumnsAppend(a: seq<string>, b: seq<string>, pks: seq<string>)
    ensures NonKeyColumns(a + b, pks) == NonKeyColumns(a, pks) + NonKeyColumns(b, pks)
  {
    if a != [] {
      assert (a + b)[1..] == a[1..] + b;
      NonKeyColumnsAppend(a[1..], b, pks);
    } else {
      assert a + b == b;
    }
  }

  /** The `c=EXCLUDED.c` assignment of a column. */
  function Assignment(c: string): (a: string)
    ensures IsPrefix(c + "=", a)
  {
    c + "=EXCLUDED." + c
  }

  /** One assignment per column, in order. */
  function Assignments(cs: seq<string>): (r: seq<string>)
    ensures |r| == |cs| && forall k | 0 <= k < |cs| :: r[k] == Assignment(cs[k])
  {
    seq(|cs|, k requires 0 <= k < |cs| => Assignment(cs[k]))
  }

  /** The SET clause: the assignment of every non-key column, joined by commas. */
  function SetClause(cols: seq<string>, pks: seq<string>): string
  {
    Join(",", Assignments(NonKeyColumns(cols, pks)))
  }

  /** The statement's lines: each after a newline and four spaces of
      indentation, the last one empty. */
  function UpsertLines(cols: seq<string>, pks: seq<string>): seq<string>
  {
    ["", InsertLine(cols), "VALUES %s", ConflictLine(pks), SetClause(cols, pks) + ";", ""]
  }

  /** `INSERT INTO <table> (<columns>)`. */
  function InsertLine(cols: seq<string>): string
  {
    "INSERT INTO " + TABLE + " (" + Join(",", cols) + ")"
  }

  /** `ON CONFLICT (<keys>) DO UPDATE SET`. */
  function ConflictLine(pks: seq<string>): string
  {
    "ON CONFLICT (" + Join(",", pks) + ") DO UPDATE SET"
  }

  /** `make_upsert_sql(cols, pks)`: insert every column, in order; on a key
      conflict, update every non-key column from the excluded row. The
      statement holds its insert line with every column, its conflict line
      with every key and its SET clause line. */
  function MakeUpsertSql(cols: seq<string>, pks: seq<string>): (sql: string)
    ensures Contains(sql, InsertLine(cols))
    ensures Contains(sql, ConflictLine(pks))
    ensures Contains(sql, SetClause(cols, pks) + ";")
  {
    var lines := UpsertLines(cols, pks);
    JoinContains("\n    ", lines, 1);
    JoinContains("\n    ", lines, 3);
    JoinContains("\n    ", lines, 4);
    Join("\n    ", lines)
  }

  /** Each assignment of the SET clause sets a column of `cols` that is not
      a key, and every non-key column gets one. */
  lemma SetClauseTargets(cols: seq<string>, pks: seq<string>)
    ensures var sets := Assignments(NonKeyColumns(cols, pks));
      (forall k | 0 <= k < |sets| :: exists c :: c in cols && c !in pks && sets[k] == Assignment(c))
      && (forall c | c in cols && c !in pks :: Assignment(c) in sets)
  {
    var ns := NonKeyColumns(cols, pks);
    var sets := Assignments(ns);
    forall k | 0 <= k < |sets| ensures exists c :: c in cols && c !in pks && sets[k] == Assignment(c) {
      assert ns[k] in ns;
    }
    forall c | c in cols && c !in pks ensures Assignment(c) in sets {
      var k :| 0 <= k < |ns| && ns[k] == c;
      assert sets[k] == Assignment(c);
    }
  }

  /** No key column is the target of an assignment: for columns that are
      plain identifiers, no assignment starts with a key and `=`. */
  lemma SetClauseSkipsKeys(cols: seq<string>, pks: seq<string>, pk: string)
    requires pk in pks && '=' !in pk
    requires forall c | c in cols :: '=' !in c
    ensures forall a | a in Assignments(NonKeyColumns(cols, pks)) :: !IsPrefix(pk + "=", a)
  {
    var ns := NonKeyColumns(cols, pks);
    forall a | a in Assignments(ns) ensures !IsPrefix(pk + "=", a) {
      var k :| 0 <= k < |ns| && Assignments(ns)[k] == a;
      var c := ns[k];
      assert c in cols && c != pk;
      if IsPrefix(pk + "=", a) {
        AssignmentTarget(c, pk);
      }
    }
  }

  /** An assignment starts with another identifier and `=` only when the
      two are the same. */
  lemma AssignmentTarget(c: string, pk: string)
    requires '=' !in c && '=' !in pk && IsPrefix(pk + "=", Assignment(c))
    ensures c == pk
  {
    var a := Assignment(c);
    assert a == c + "=" + ("EXCLUDED." + c);
    FirstEqAfter(c, "EXCLUDED." + c);
    assert a == pk + "=" + a[|pk| + 1..];
    FirstEqAfter(pk, a[|pk| + 1..]);
    assert c == a[..|c|] == pk;
  }

  /** The position of the first `=` (the length when there is none). */
  function FirstEq(s: string): nat
  {
    if s == [] || s[0] == '=' then 0 else 1 + FirstEq(s[1..])
  }

  lemma {:induction false} FirstEqAfter(x: string, y: string)
    requires '=' !in x
    ensures FirstEq(x + "=" + y) == |x|
  {
    if x != [] {
      assert (x + "=" + y)[1..] == x[1..] + "=" + y;
      assert x[0] in x;
      FirstEqAfter(x[1..], y);
    }
  }

  /** Two key columns followed by a third that is not a key: only the
      third is updated. */
  lemma KeysThenColumn(a: string, b: string, c: string, pks: seq<string>)
    requires a in pks && b in pks && c !in pks
    ensures SetClause([a, b, c], pks) == Assignment(c)
  {
    var cols := [a, b, c];
    assert cols[1..] == [b, c] && cols[1..][1..] == [c] && [c][1..] == [];
    assert NonKeyColumns(cols, pks) == [c];
  }

  /** The default keys, on three columns: only the third is updated. */
  lemma DefaultKeysExample()
    ensures SetClause(["call_number", "unit_id", "priority"], PKS) == "priority=EXCLUDED.priority"
  {
    assert "priority" != PKS[0] && "priority" != PKS[1];
    KeysThenColumn("call_number", "unit_id", "priority", PKS);
  }

  // ----- clean_value and clean_record -----

  /** A record as an API row: keys and values in iteration order. */
  type Record = seq<(string, Json)>

  /** `clean_value(v)`: null stays null; a string is stripped, and null
      when nothing is left; an array or object becomes the text `dumps`
      gives it (the JSON encoder, not modelled); anything else is kept. */
  function CleanValue(v: Json, dumps: Json -> string): (r: Json)
    ensures !r.JArray? && !r.JObject?
    ensures v.JNull? ==> r.JNull?
    ensures v.JString? ==> (r.JNull? <==> Strip(v.s) == "")
    ensures v.JString? && r.JString? ==> r.s == Strip(v.s) && IsStripped(r.s) && r.s != ""
    ensures (v.JArray? || v.JObject?) ==> r == JString(dumps(v))
    ensures (v.JBool? || v.JNumber?) ==> r == v
  {
    match v
    case JNull => JNull
    case JString(s) =>
      var t := Strip(s);
      if t == "" then JNull else JString(t)
    case JArray(_) => JString(dumps(v))
    case JObject(_) => JString(dumps(v))
    case _ => v
  }

  /** Cleaning is idempotent on everything but arrays and objects, and a
      stripped, non-empty string is kept as it is. */
  lemma CleanValueIdempotent(v: Json, dumps: Json -> string)
    requires !v.JArray? && !v.JObject?
    ensures CleanValue(CleanValue(v, dumps), dumps) == CleanValue(v, dumps)
    ensures v.JString? && IsStripped(v.s) && v.s != "" ==> CleanValue(v, dumps) == v
  {
  }

  /** A cleaned value cleaned again is the same, except that the text of an
      array or object is stripped, and null when blank. */
  lemma CleanTwice(v: Json, dumps: Json -> string)
    ensures (v.JArray? || v.JObject?) ==>
      CleanValue(CleanValue(v, dumps), dumps) == CleanValue(JString(dumps(v)), dumps)
    ensures !(v.JArray? || v.JObject?) ==>
      CleanValue(CleanValue(v, dumps), dumps) == CleanValue(v, dumps)
  {
    if !(v.JArray? || v.JObject?) {
      CleanValueIdempotent(v, dumps);
    }
  }

  /** `k.lower().replace(" ", "_")`, with ASCII lower-casing. */
  function NormalizeKey(k: string): (r: string)
    ensures |r| == |k|
    ensures forall i | 0 <= i < |r| :: r[i] != ' ' && !('A' <= r[i] <= 'Z')
    ensures forall i | 0 <= i < |k| :: k[i] != ' ' ==> r[i] == LowerChar(k[i])
    ensures forall i | 0 <= i < |k| :: k[i] == ' ' ==> r[i] == '_'
  {
    seq(|k|, i requires 0 <= i < |k| => if LowerChar(k[i]) == ' ' then '_' else LowerChar(k[i]))
  }

  /** Normalising a normalised key changes nothing. */
  lemma NormalizeKeyIdempotent(k: string)
    ensures NormalizeKey(NormalizeKey(k)) == NormalizeKey(k)
  {
    var n := NormalizeKey(k);
    assert forall i | 0 <= i < |n| :: NormalizeKey(n)[i] == n[i];
  }

  /** The normalised key of the i-th entry. */
  function KeyAt(rec: Record, i: nat): string
    requires i < |rec|
  {
    NormalizeKey(rec[i].0)
  }

  /** The dictionary comprehension of `clean_record`: normalised key to
      cleaned value, entries taken in order so that a later entry whose key
      normalises the same replaces an earlier one. No value is an array or
      an object. */
  function NormalizeRecord(rec: Record, dumps: Json -> string): (m: map<string, Json>)
    ensures forall c | c in m :: !m[c].JArray? && !m[c].JObject?
  {
    if rec == [] then map[]
    else
      var last := rec[|rec| - 1];
      NormalizeRecord(rec[..|rec| - 1], dumps)[NormalizeKey(last.0) := CleanValue(last.1, dumps)]
  }

  /** The normalised record's keys are exactly the normalised keys of the
      entries. */
  lemma {:induction false} NormalizeRecordKeys(rec: Record, dumps: Json -> string)
    ensures forall c :: c in NormalizeRecord(rec, dumps) <==> exists i | 0 <= i < |rec| :: KeyAt(rec, i) == c
  {
    if rec != [] {
      var init := rec[..|rec| - 1];
      var lastKey := KeyAt(rec, |rec| - 1);
      NormalizeRecordKeys(init, dumps);
      forall c ensures c in NormalizeRecord(rec, dumps) <==> exists i | 0 <= i < |rec| :: KeyAt(rec, i) == c {
        if c != lastKey {
          if c in NormalizeRecord(init, dumps) {
            var i :| 0 <= i < |init| && KeyAt(init, i) == c;
            assert KeyAt(rec, i) == c;
          }
          if exists i | 0 <= i < |rec| :: KeyAt(rec, i) == c {
            var i :| 0 <= i < |rec| && KeyAt(rec, i) == c;
            assert KeyAt(init, i) == c;
          }
        }
      }
    }
  }

  /** The value a normalised key ends up with is the cleaned value of the
      last entry whose key normalises to it. */
  lemma {:induction false} NormalizeLastWins(rec: Record, dumps: Json -> string, i: nat)
    requires i < |rec|
    requires forall j | i < j < |rec| :: KeyAt(rec, j) != KeyAt(rec, i)
    ensures KeyAt(rec, i) in NormalizeRecord(rec, dumps)
    ensures NormalizeRecord(rec, dumps)[KeyAt(rec, i)] == CleanValue(rec[i].1, dumps)
  {
    if i < |rec| - 1 {
      var init := rec[..|rec| - 1];
      assert KeyAt(init, i) == KeyAt(rec, i);
      forall j | i < j < |init| ensures KeyAt(init, j) != KeyAt(init, i) {
        assert KeyAt(init, j) == KeyAt(rec, j);
      }
      NormalizeLastWins(init, dumps, i);
      assert KeyAt(rec, |rec| - 1) != KeyAt(rec, i);
    }
  }

  /** `rec.get(c)`: the value of a key, or null when absent. */
  function Get(m: map<string, Json>, c: string): Json
  {
    if c in m then m[c] else JNull
  }

  /** `clean_record(rec, cols)`: one value per column, in column order,
      each the normalised record's value for that column cleaned again,
      or null where the record has none. */
  function CleanRecord(rec: Record, cols: seq<string>, dumps: Json -> string): (row: seq<Json>)
    ensures |row| == |cols|
    ensures forall k | 0 <= k < |cols| :: !row[k].JArray? && !row[k].JObject?
  {
    var m := NormalizeRecord(rec, dumps);
    seq(|cols|, k requires 0 <= k < |cols| => CleanValue(Get(m, cols[k]), dumps))
  }

  /** A column no key normalises to is null in the row. */
  lemma CleanRecordMissing(rec: Record, cols: seq<string>, dumps: Json -> string, k: nat)
    requires k < |cols|
    requires forall i | 0 <= i < |rec| :: KeyAt(rec, i) != cols[k]
    ensures CleanRecord(rec, cols, dumps)[k] == JNull
  {
    NormalizeRecordKeys(rec, dumps);
  }

  /** A column's value is that of the last entry whose key normalises to
      the column, cleaned twice: for anything but an array or object, that
      is the cleaned value itself. */
  lemma CleanRecordLastWins(rec: Record, cols: seq<string>, dumps: Json -> string, k: nat, i: nat)
    requires k < |cols| && i < |rec| && KeyAt(rec, i) == cols[k]
    requires forall j | i < j < |rec| :: KeyAt(rec, j) != cols[k]
    ensures CleanRecord(rec, cols, dumps)[k] == CleanValue(CleanValue(rec[i].1, dumps), dumps)
    ensures !rec[i].1.JArray? && !rec[i].1.JObject? ==> CleanRecord(rec, cols, dumps)[k] == CleanValue(rec[i].1, dumps)
  {
    NormalizeLastWins(rec, dumps, i);
    CleanTwice(rec[i].1, dumps);
  }

  /** Two entries whose keys normalise to the same column: the later one wins. */
  lemma CollidingKeys(k1: string, v1: Json, k2: string, v2: Json, col: string, dumps: Json -> string)
    requires NormalizeKey(k1) == col && NormalizeKey(k2) == col
    ensures CleanRecord([(k1, v1), (k2, v2)], [col], dumps) == [CleanValue(CleanValue(v2, dumps), dumps)]
  {
    CleanRecordLastWins([(k1, v1), (k2, v2)], [col], dumps, 0, 1);
  }

  /** `Unit ID` and `unit_id` both normalise to the `unit_id` column. */
  lemma UnitIdKeys()
    ensures NormalizeKey("Unit ID") == "unit_id" && NormalizeKey("unit_id") == "unit_id"
  {
    assert NormalizeKey("Unit ID")[4] == '_';
  }
}
