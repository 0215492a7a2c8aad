/**
  The custom fields shown on the default tab: the organization's own fields
  merged with the configured defaults, one entry per field name, the first
  occurrence of a name winning (lodash `unionBy` keyed on `name`).
 */
module FieldMerge {
  import opened Seqs

  datatype CustomField = CustomField(name: string, value: string)

  function Names(fs: seq<CustomField>): (r: set<string>) {
    set f | f in fs :: f.name
  }

  ghost predicate UniqueNames(fs: seq<CustomField>) {
    forall i, j :: 0 <= i < j < |fs| ==> fs[i].name != fs[j].name
  }

  /** No earlier element of `fs` has the name of `fs[i]`. */
  ghost predicate IsFirstOfName(fs: seq<CustomField>, i: int) {
    0 <= i < |fs| && forall j :: 0 <= j < i ==> fs[j].name != fs[i].name
  }

  /** Keeps, in order, each element whose name is neither in `seen` nor on an earlier element. */
  function UniqBy(fs: seq<CustomField>, seen: set<string>): (r: seq<CustomField>)
    ensures |r| <= |fs|
    decreases |fs|
  {
    if |fs| == 0 then []
    else if fs[0].name in seen then UniqBy(fs[1..], seen)
    else [fs[0]] + UniqBy(fs[1..], seen + {fs[0].name})
  }

  lemma {:induction false} UniqByUnique(fs: seq<CustomField>, seen: set<string>)
    ensures UniqueNames(UniqBy(fs, seen))
    ensures forall f :: f in UniqBy(fs, seen) ==> f.name !in seen
    decreases |fs|
  {
    if |fs| > 0 {
      if fs[0].name in seen {
        UniqByUnique(fs[1..], seen);
      } else {
        UniqByUnique(fs[1..], seen + {fs[0].name});
        var rest := UniqBy(fs[1..], seen + {fs[0].name});
        forall j | 0 <= j < |rest| ensures rest[j].name != fs[0].name {
          assert rest[j] in rest;
        }
      }
    }
  }

  lemma {:induction false} UniqByNames(fs: seq<CustomField>, seen: set<string>)
    ensures Names(UniqBy(fs, seen)) == Names(fs) - seen
    decreases |fs|
  {
    if |fs| > 0 {
      assert fs == [fs[0]] + fs[1..];
      assert Names(fs) == {fs[0].name} + Names(fs[1..]);
      if fs[0].name in seen {
        UniqByNames(fs[1..], seen);
      } else {
        UniqByNames(fs[1..], seen + {fs[0].name});
        var rest := UniqBy(fs[1..], seen + {fs[0].name});
        assert Names([fs[0]] + rest) == {fs[0].name} + Names(rest);
      }
    }
  }

  lemma {:induction false} UniqByIsSubseq(fs: seq<CustomField>, seen: set<string>)
    ensures IsSubseq(UniqBy(fs, seen), fs)
    decreases |fs|
  {
    if |fs| > 0 {
      if fs[0].name in seen {
        UniqByIsSubseq(fs[1..], seen);
      } else {
        UniqByIsSubseq(fs[1..], seen + {fs[0].name});
        var r := UniqBy(fs, seen);
        assert r[0] == fs[0] && r[1..] == UniqBy(fs[1..], seen + {fs[0].name});
      }
    }
  }

  /** Deduplicating a concatenation: the second part only keeps names the first part did not have. */
  lemma {:induction false} UniqByConcat(a: seq<CustomField>, b: seq<CustomField>, seen: set<string>)
    ensures UniqBy(a + b, seen) == UniqBy(a, seen) + UniqBy(b, seen + Names(a))
    decreases |a|
  {
    if |a| == 0 {
      assert a + b == b;
      assert Names(a) == {};
      assert seen + Names(a) == seen;
    } else {
      assert (a + b)[0] == a[0];
      assert (a + b)[1..] == a[1..] + b;
      assert a == [a[0]] + a[1..];
      assert Names(a) == {a[0].name} + Names(a[1..]);
      if a[0].name in seen {
        UniqByConcat(a[1..], b, seen);
        assert seen + Names(a[1..]) == seen + Names(a);
      } else {
        UniqByConcat(a[1..], b, seen + {a[0].name});
        assert seen + {a[0].name} + Names(a[1..]) == seen + Names(a);
      }
    }
  }

  /** The first element with a given name survives when that name was not seen before. */
  lemma {:induction false} UniqByKeepsFirst(fs: seq<CustomField>, seen: set<string>, i: int)
    requires IsFirstOfName(fs, i) && fs[i].name !in seen
    ensures fs[i] in UniqBy(fs, seen)
    decreases |fs|
  {
    if i > 0 {
      assert IsFirstOfName(fs[1..], i - 1) by {
        forall j | 0 <= j < i - 1 ensures fs[1..][j].name != fs[1..][i - 1].name {
          assert fs[1..][j] == fs[j + 1];
        }
      }
      assert fs[1..][i - 1] == fs[i];
      assert fs[0].name != fs[i].name;
      if fs[0].name in seen {
        UniqByKeepsFirst(fs[1..], seen, i - 1);
      } else {
        UniqByKeepsFirst(fs[1..], seen + {fs[0].name}, i - 1);
      }
    }
  }

  /** A duplicate-free list that avoids `seen` passes through unchanged. */
  lemma {:induction false} UniqByIdentity(fs: seq<CustomField>, seen: set<string>)
    requires UniqueNames(fs)
    requires forall f :: f in fs ==> f.name !in seen
    ensures UniqBy(fs, seen) == fs
    decreases |fs|
  {
    if |fs| > 0 {
      assert fs[0] in fs;
      assert UniqueNames(fs[1..]) by {
        forall i, j | 0 <= i < j < |fs[1..]| ensures fs[1..][i].name != fs[1..][j].name {
          assert fs[1..][i] == fs[i + 1] && fs[1..][j] == fs[j + 1];
        }
      }
      forall f | f in fs[1..] ensures f.name !in seen + {fs[0].name} {
        var k :| 0 <= k < |fs[1..]| && fs[1..][k] == f;
        assert fs[k + 1] == f;
      }
      UniqByIdentity(fs[1..], seen + {fs[0].name});
      assert fs == [fs[0]] + fs[1..];
    }
  }

  /**
    `unionBy(fields, defaultFields, 'name')`: each name once, the entity's own
    entries (first per name) in their order, then the defaults whose name the
    entity does not have, in their order.
   */
  function JoinById(fields: seq<CustomField>, defaultFields: seq<CustomField>): (r: seq<CustomField>)
    ensures UniqueNames(r)
    ensures Names(r) == Names(fields) + Names(defaultFields)
    ensures forall f :: f in r ==> f in fields || f in defaultFields
    ensures forall i :: IsFirstOfName(fields, i) ==> fields[i] in r
    ensures forall f :: f in r && f.name in Names(fields) ==> f in fields
    ensures r == UniqBy(fields, {}) + UniqBy(defaultFields, Names(fields))
  {
    var all := fields + defaultFields;
    UniqByConcat(fields, defaultFields, {});
    assert {} + Names(fields) == Names(fields);
    UniqByUnique(all, {});
    UniqByNames(all, {});
    assert Names(all) == Names(fields) + Names(defaultFields) by {
      forall f | f in all ensures f in fields || f in defaultFields { }
      forall f | f in fields ensures f in all { }
      forall f | f in defaultFields ensures f in all { }
    }
    UniqByIsSubseq(fields, {});
    SubseqMembers(UniqBy(fields, {}), fields);
    UniqByIsSubseq(defaultFields, Names(fields));
    SubseqMembers(UniqBy(defaultFields, Names(fields)), defaultFields);
    UniqByUnique(defaultFields, Names(fields));
    assert forall i :: IsFirstOfName(fields, i) ==> fields[i] in UniqBy(fields, {}) by {
      forall i | IsFirstOfName(fields, i) ensures fields[i] in UniqBy(fields, {}) {
        UniqByKeepsFirst(fields, {}, i);
      }
    }
    UniqBy(all, {})
  }

  /** When the entity's own fields have distinct names, they are the merge's prefix, unchanged. */
  lemma EntityFieldsArePrefix(fields: seq<CustomField>, defaultFields: seq<CustomField>)
    requires UniqueNames(fields)
    ensures |fields| <= |JoinById(fields, defaultFields)|
    ensures JoinById(fields, defaultFields)[..|fields|] == fields
  {
    UniqByIdentity(fields, {});
    var r := JoinById(fields, defaultFields);
    assert r == fields + UniqBy(defaultFields, Names(fields));
  }

  lemma JoinByIdExample()
    ensures JoinById([CustomField("x", "1")], [CustomField("x", "2"), CustomField("y", "3")])
         == [CustomField("x", "1"), CustomField("y", "3")]
  {
    var fields := [CustomField("x", "1")];
    var defaults := [CustomField("x", "2"), CustomField("y", "3")];
    assert Names(fields) == {"x"};
    assert UniqBy(defaults, {"x"}) == [CustomField("y", "3")];
  }
}
