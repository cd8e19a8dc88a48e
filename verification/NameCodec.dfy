/** Database names: `owner/name` + marker + six hexadecimal digits, and the script that parses them back. */
module NameCodec {
  import opened Common
  import opened Text

  const MARKER := "ctsj"

  datatype Row = Row(owner: string, name: string, cid: string)

  function RequestName(r: Row): string {
    r.owner + "/" + r.name + MARKER + r.cid
  }

  function BucketName(r: Row): string {
    r.owner + "$" + r.name + MARKER + r.cid + ".zip"
  }

  /** The parser of one item; None where indexing the split result fails. */
  function ParseItem(item: string): Option<Row> {
    var t := Split(item, "/");
    if |t| < 2 then None else
      var u := Split(t[1], MARKER);
      if |u| < 2 then None else Some(Row(t[0], u[0], u[1]))
  }

  predicate IsHexDigit(c: char) {
    '0' <= c <= '9' || 'a' <= c <= 'f'
  }

  /** The shape of a three-byte digest in hexadecimal. */
  predicate IsCid(s: string) {
    |s| == 6 && forall i :: 0 <= i < 6 ==> IsHexDigit(s[i])
  }

  /** The marker overlaps no shift of itself, so appending it creates no earlier occurrence. */
  lemma SplitAtMarker(a: string, b: string)
    requires !Contains(a, MARKER)
    ensures Split(a + MARKER + b, MARKER) == [a] + Split(b, MARKER)
  {
    var s := a + MARKER + b;
    assert s[|a|..|a| + 4] == MARKER;
    forall k | 0 <= k < |a| ensures !OccursAt(s, MARKER, k) {
      if k + 4 <= |a| {
        assert a[k..k + 4] == s[k..k + 4];
        assert !OccursAt(a, MARKER, k);
      } else {
        assert s[k..k + 4][|a| - k] == s[|a|] == 'c';
      }
    }
    FindAtPrefix(s, MARKER, |a|);
    assert s[..|a|] == a && s[|a| + 4..] == b;
  }

  lemma CidHasNoMarker(cid: string)
    requires IsCid(cid)
    ensures !Contains(cid, MARKER) && '/' !in cid
  {
    forall i | 0 <= i <= |cid| ensures !OccursAt(cid, MARKER, i) {
      if i + 4 <= |cid| {
        assert cid[i..i + 4][1] == cid[i + 1];
      }
    }
  }

  /** For a digest of the right shape, the parser undoes the printer on exactly these rows. */
  lemma ParseFormedIff(r: Row)
    requires IsCid(r.cid)
    ensures ParseItem(RequestName(r)) == Some(r)
       <==> '/' !in r.owner && '/' !in r.name && !Contains(r.name, MARKER)
  {
    var item := RequestName(r);
    var rest := r.name + MARKER + r.cid;
    assert item == r.owner + "/" + rest;
    CidHasNoMarker(r.cid);
    if '/' !in r.owner && '/' !in r.name && !Contains(r.name, MARKER) {
      SplitAtChar(r.owner, '/', rest);
      ContainsChar(rest, '/');
      NoOccurrence(rest, "/");
      SplitAtMarker(r.name, r.cid);
      NoOccurrence(r.cid, MARKER);
    }
    if ParseItem(item) == Some(r) {
      var t := Split(item, "/");
      PartsAreFree(item, "/", 0);
      PartsAreFree(item, "/", 1);
      ContainsChar(t[0], '/');
      ContainsChar(t[1], '/');
      PartsAreFree(t[1], MARKER, 0);
      var i := Find(t[1], MARKER, 0);
      assert r.name == t[1][..i];
    }
  }

  /** The printed name determines the row, also for names that contain the marker themselves. */
  lemma RequestNameInjective(a: Row, b: Row)
    requires '/' !in a.owner && '/' !in b.owner && |a.cid| == |b.cid|
    requires RequestName(a) == RequestName(b)
    ensures a == b
  {
    var x, y := a.name + MARKER + a.cid, b.name + MARKER + b.cid;
    assert RequestName(a) == a.owner + "/" + x && RequestName(b) == b.owner + "/" + y;
    FirstCharUnique(a.owner, x, b.owner, y, '/');
    EndsEqual(a.name + MARKER, a.cid, b.name + MARKER, b.cid);
    EndsEqual(a.name, MARKER, b.name, MARKER);
  }

  /** Two bucket names meet exactly when the digests agree and the owners and names do with a dollar between them. */
  lemma BucketNameEqualIff(a: Row, b: Row)
    requires |a.cid| == |b.cid|
    ensures BucketName(a) == BucketName(b)
       <==> a.cid == b.cid && a.owner + "$" + a.name == b.owner + "$" + b.name
  {
    var x, y := a.owner + "$" + a.name, b.owner + "$" + b.name;
    assert BucketName(a) == x + MARKER + a.cid + ".zip" && BucketName(b) == y + MARKER + b.cid + ".zip";
    if BucketName(a) == BucketName(b) {
      EndsEqual(x + MARKER + a.cid, ".zip", y + MARKER + b.cid, ".zip");
      EndsEqual(x + MARKER, a.cid, y + MARKER, b.cid);
      EndsEqual(x, MARKER, y, MARKER);
    }
  }

  /** For owners without a dollar the bucket name determines the row. */
  lemma BucketNameInjective(a: Row, b: Row)
    requires '$' !in a.owner && '$' !in b.owner && |a.cid| == |b.cid|
    requires BucketName(a) == BucketName(b)
    ensures a == b
  {
    BucketNameEqualIff(a, b);
    FirstCharUnique(a.owner, a.name, b.owner, b.name, '$');
  }

  /** A dollar in an owner can be shifted into the name: the two rows differ, and share one bucket name. */
  lemma DollarsCollide(owner: string, middle: string, name: string, cid: string)
    ensures var a, b := Row(owner + "$" + middle, name, cid), Row(owner, middle + "$" + name, cid);
            a != b && BucketName(a) == BucketName(b)
  {
    var a, b := Row(owner + "$" + middle, name, cid), Row(owner, middle + "$" + name, cid);
    assert |a.owner| > |b.owner|;
    assert a.owner + "$" + a.name == b.owner + "$" + b.name;
    BucketNameEqualIff(a, b);
  }

  // ----- The whole script

  predicate WellNamed(r: Row) {
    IsCid(r.cid) && '/' !in r.owner && '/' !in r.name && !Contains(r.name, MARKER)
  }

  /** The loop over the list; it stops at the first item that does not parse. */
  method ParseList(items: seq<string>) returns (parsed: Option<seq<Row>>)
    ensures parsed.None? <==> exists i :: 0 <= i < |items| && ParseItem(items[i]).None?
    ensures parsed.Some? ==>
              |parsed.value| == |items|
              && forall i :: 0 <= i < |items| ==> ParseItem(items[i]) == Some(parsed.value[i])
  {
    var rows: seq<Row> := [];
    for i := 0 to |items|
      invariant |rows| == i
      invariant forall k :: 0 <= k < i ==> ParseItem(items[k]) == Some(rows[k])
    {
      var r := ParseItem(items[i]);
      if r.None? { return None; }
      rows := rows + [r.value];
    }
    return Some(rows);
  }

  /** Some item of the list names the row. */
  predicate Named(items: seq<string>, r: Row) {
    exists i :: 0 <= i < |items| && ParseItem(items[i]) == Some(r)
  }

  /** `rows` are the table's entries at the positions `at`: in table order, all those with a named row. */
  ghost predicate Picks(items: seq<string>, table: seq<Row>, rows: seq<Row>, at: seq<int>) {
    && |at| == |rows|
    && (forall k :: 0 <= k < |at| ==> 0 <= at[k] < |table| && rows[k] == table[at[k]])
    && (forall k, m :: 0 <= k < m < |at| ==> at[k] < at[m])
    && (forall i :: 0 <= i < |table| ==> (i in at <==> Named(items, table[i])))
  }

  lemma PicksNext(items: seq<string>, table: seq<Row>, rows: seq<Row>, at: seq<int>, next: Row)
    requires Picks(items, table, rows, at)
    ensures Named(items, next) ==> Picks(items, table + [next], rows + [next], at + [|table|])
    ensures !Named(items, next) ==> Picks(items, table + [next], rows, at)
  {
    var longer, more := table + [next], at + [|table|];
    assert forall i :: 0 <= i < |table| ==> longer[i] == table[i];
    assert more[|at|] == |table|;
    forall i | 0 <= i < |longer| ensures i in more <==> i in at || i == |table| {
      assert i in at ==> i in more;
    }
  }

  lemma PicksHave(items: seq<string>, table: seq<Row>, rows: seq<Row>, at: seq<int>, r: Row)
    requires Picks(items, table, rows, at)
    ensures r in rows <==> r in table && Named(items, r)
  {
    if r in rows {
      var k :| 0 <= k < |rows| && rows[k] == r;
      assert at[k] in at;
    }
    if r in table && Named(items, r) {
      var i :| 0 <= i < |table| && table[i] == r;
      var k :| 0 <= k < |at| && at[k] == i;
      assert rows[k] == r;
    }
  }

  lemma ParsedAreNamed(items: seq<string>, parsed: seq<Row>, r: Row)
    requires |parsed| == |items| && forall i :: 0 <= i < |items| ==> ParseItem(items[i]) == Some(parsed[i])
    ensures r in parsed <==> Named(items, r)
  {
  }

  /** Selects the table rows named in the list, in order and as often as they stand there; None when one is no name. */
  method SelectRows(items: seq<string>, table: seq<Row>) returns (selected: Option<seq<Row>>)
    ensures selected.None? <==> exists i :: 0 <= i < |items| && ParseItem(items[i]).None?
    ensures selected.Some? ==> exists at :: Picks(items, table, selected.value, at)
    ensures selected.Some? ==> forall r :: r in selected.value <==> r in table && Named(items, r)
  {
    var parsed := ParseList(items);
    if parsed.None? { return None; }
    var rows := [];
    ghost var at: seq<int> := [];
    for i := 0 to |table|
      invariant Picks(items, table[..i], rows, at)
    {
      assert table[..i + 1] == table[..i] + [table[i]];
      ParsedAreNamed(items, parsed.value, table[i]);
      PicksNext(items, table[..i], rows, at, table[i]);
      if table[i] in parsed.value {
        rows, at := rows + [table[i]], at + [i];
      }
    }
    assert table[..|table|] == table;
    forall r ensures r in rows <==> r in table && Named(items, r) {
      PicksHave(items, table, rows, at, r);
    }
    return Some(rows);
  }

  /** A list printed from well-named rows parses, and selects from a table exactly those rows. */
  lemma FormedListSelects(listed: seq<Row>, items: seq<string>, table: seq<Row>, r: Row)
    requires |items| == |listed|
    requires forall i :: 0 <= i < |listed| ==> WellNamed(listed[i]) && items[i] == RequestName(listed[i])
    ensures forall i :: 0 <= i < |items| ==> ParseItem(items[i]) == Some(listed[i])
    ensures r in table && Named(items, r) <==> r in table && r in listed
  {
    forall i | 0 <= i < |items| ensures ParseItem(items[i]) == Some(listed[i]) {
      ParseFormedIff(listed[i]);
    }
    if r in listed {
      var i :| 0 <= i < |listed| && listed[i] == r;
      assert ParseItem(items[i]) == Some(r);
    }
  }
}
