/**
  The organization's permission flags: the fetched permissions object turned
  into the settings tab's options list (the GraphQL `__typename` key dropped),
  and the options list folded back into the record that is saved.
 */
module Permissions {

  /** One `[key, value]` pair of `Object.entries` on the fetched permissions object. */
  datatype PermissionEntry = PermissionEntry(key: string, value: bool)

  /** One row of the settings tab; its `label` is called `text` here (`label` is a Dafny keyword). */
  datatype PermissionOption = PermissionOption(text: string, value: bool)

  const TypenameKey: string := "__typename"

  /** Object keys are distinct. */
  ghost predicate UniqueKeys(entries: seq<PermissionEntry>) {
    forall i, j :: 0 <= i < j < |entries| ==> entries[i].key != entries[j].key
  }

  function Keys(entries: seq<PermissionEntry>): (r: set<string>) {
    set e | e in entries :: e.key
  }

  function Texts(options: seq<PermissionOption>): (r: set<string>) {
    set o | o in options :: o.text
  }

  /** No later option has the text of `options[i]`. */
  ghost predicate IsLastOfText(options: seq<PermissionOption>, i: int) {
    0 <= i < |options| && forall j :: i < j < |options| ==> options[j].text != options[i].text
  }

  /** The entries other than `__typename`, as options, in order. */
  function PermissionOptions(entries: seq<PermissionEntry>): (r: seq<PermissionOption>)
    ensures forall o :: o in r <==> o.text != TypenameKey && PermissionEntry(o.text, o.value) in entries
    decreases |entries|
  {
    if |entries| == 0 then []
    else
      var rest := PermissionOptions(entries[1..]);
      assert entries == [entries[0]] + entries[1..];
      if entries[0].key == TypenameKey then rest
      else [PermissionOption(entries[0].key, entries[0].value)] + rest
  }

  /** The `reduce` that builds the saved record: one key per option text. */
  function PermissionsRecord(options: seq<PermissionOption>): (r: map<string, bool>)
    ensures r.Keys == Texts(options)
    decreases |options|
  {
    if |options| == 0 then map[]
    else
      var init := options[..|options| - 1];
      var last := options[|options| - 1];
      assert options == init + [last];
      assert Texts(options) == Texts(init) + {last.text};
      PermissionsRecord(init)[last.text := last.value]
  }

  /** In the saved record a later option overrides an earlier one with the same text. */
  lemma {:induction false} PermissionsRecordLastWins(options: seq<PermissionOption>)
    ensures forall i :: IsLastOfText(options, i) ==> PermissionsRecord(options)[options[i].text] == options[i].value
    decreases |options|
  {
    if |options| > 0 {
      var n := |options| - 1;
      var init := options[..n];
      PermissionsRecordLastWins(init);
      forall i | IsLastOfText(options, i)
        ensures PermissionsRecord(options)[options[i].text] == options[i].value
      {
        if i < n {
          assert options[n].text != options[i].text;
          assert init[i] == options[i];
          assert IsLastOfText(init, i);
        }
      }
    }
  }

  lemma {:induction false} PermissionOptionsUniqueTexts(entries: seq<PermissionEntry>)
    requires UniqueKeys(entries)
    ensures forall i, j :: 0 <= i < j < |PermissionOptions(entries)| ==> PermissionOptions(entries)[i].text != PermissionOptions(entries)[j].text
    decreases |entries|
  {
    if |entries| > 0 {
      var rest := PermissionOptions(entries[1..]);
      assert UniqueKeys(entries[1..]) by {
        forall i, j | 0 <= i < j < |entries[1..]| ensures entries[1..][i].key != entries[1..][j].key {
          assert entries[1..][i] == entries[i + 1] && entries[1..][j] == entries[j + 1];
        }
      }
      PermissionOptionsUniqueTexts(entries[1..]);
      if entries[0].key != TypenameKey {
        forall j | 0 <= j < |rest| ensures rest[j].text != entries[0].key {
          assert rest[j] in rest;
          var k :| 0 <= k < |entries[1..]| && entries[1..][k] == PermissionEntry(rest[j].text, rest[j].value);
          assert entries[k + 1] == entries[1..][k];
        }
      }
    }
  }

  lemma OptionTextsAreKeys(entries: seq<PermissionEntry>)
    ensures Texts(PermissionOptions(entries)) == Keys(entries) - {TypenameKey}
  {
    var options := PermissionOptions(entries);
    forall k | k in Texts(options) ensures k in Keys(entries) - {TypenameKey} {
      var o :| o in options && o.text == k;
      assert PermissionEntry(o.text, o.value) in entries;
    }
    forall k | k in Keys(entries) - {TypenameKey} ensures k in Texts(options) {
      var e :| e in entries && e.key == k;
      assert PermissionOption(e.key, e.value) in options;
    }
  }

  lemma SavedValue(entries: seq<PermissionEntry>, i: int)
    requires UniqueKeys(entries)
    requires 0 <= i < |entries| && entries[i].key != TypenameKey
    ensures entries[i].key in PermissionsRecord(PermissionOptions(entries))
    ensures PermissionsRecord(PermissionOptions(entries))[entries[i].key] == entries[i].value
  {
    var options := PermissionOptions(entries);
    OptionTextsAreKeys(entries);
    assert entries[i] in entries;
    PermissionOptionsUniqueTexts(entries);
    PermissionsRecordLastWins(options);
    var o := PermissionOption(entries[i].key, entries[i].value);
    assert entries[i] == PermissionEntry(o.text, o.value);
    assert o in options;
    var k :| 0 <= k < |options| && options[k] == o;
    assert IsLastOfText(options, k);
  }

  /**
    Loading and then saving the permissions gives back the fetched object
    without its `__typename` key: the same keys, each with its fetched value.
   */
  lemma PermissionsRoundTrip(entries: seq<PermissionEntry>)
    requires UniqueKeys(entries)
    ensures PermissionsRecord(PermissionOptions(entries)).Keys == Keys(entries) - {TypenameKey}
    ensures forall i :: 0 <= i < |entries| && entries[i].key != TypenameKey ==>
      PermissionsRecord(PermissionOptions(entries))[entries[i].key] == entries[i].value
  {
    OptionTextsAreKeys(entries);
    forall i | 0 <= i < |entries| && entries[i].key != TypenameKey
      ensures PermissionsRecord(PermissionOptions(entries))[entries[i].key] == entries[i].value
    {
      SavedValue(entries, i);
    }
  }
}
