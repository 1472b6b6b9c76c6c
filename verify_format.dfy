/** The structural checker for the challenge output files (`verify_expected_format`),
    run over a JSON value that has already been parsed, and the pass/fail aggregation
    over the collection outputs (`main`). */
module VerifyFormat {
  import opened PyStrings
  import ExpectedFormatter

  // ---------------------------------------------------------------------------
  // Parsed JSON and the Python operations the checker applies to it
  // ---------------------------------------------------------------------------

  /** A value as `json.load` returns it; an object keeps its members in document order. */
  datatype Json =
    | JNull
    | JBool(b: bool)
    | JNum(n: real)
    | JStr(s: string)
    | JArr(items: seq<Json>)
    | JObj(members: seq<(string, Json)>)

  predicate HasKey(members: seq<(string, Json)>, k: string) {
    exists i :: 0 <= i < |members| && members[i].0 == k
  }

  /** The value the parsed dict holds for `k`: the last member of that name wins. */
  function Get(members: seq<(string, Json)>, k: string): (v: Json)
    requires HasKey(members, k)
    ensures exists i :: 0 <= i < |members| && members[i] == (k, v)
    decreases |members|
  {
    var n := |members| - 1;
    if members[n].0 == k then members[n].1
    else
      assert HasKey(members[..n], k) by {
        var i :| 0 <= i < |members| && members[i].0 == k;
        assert members[..n][i] == members[i];
      }
      var v := Get(members[..n], k);
      assert exists i :: 0 <= i < |members[..n]| && members[..n][i] == (k, v);
      v
  }

  /** When the names are pairwise distinct, the value of a member is the one stored at its position. */
  lemma GetDistinct(members: seq<(string, Json)>, i: nat)
    requires i < |members|
    requires forall a, b :: 0 <= a < b < |members| ==> members[a].0 != members[b].0
    ensures HasKey(members, members[i].0) && Get(members, members[i].0) == members[i].1
  {
    var k := members[i].0;
    assert members[i].0 == k;
    var j :| 0 <= j < |members| && members[j] == (k, Get(members, k));
    assert j == i;
  }

  /** `d.keys()`: every name once, in the order of its first occurrence. */
  function Keys(members: seq<(string, Json)>): (r: seq<string>)
    ensures forall k :: k in r <==> HasKey(members, k)
    ensures forall i, j :: 0 <= i < j < |r| ==> r[i] != r[j]
  {
    var ks := KeysOf(members);
    assert forall k :: k in ks <==> HasKey(members, k) by {
      forall k
        ensures k in ks <==> HasKey(members, k)
      {
        if HasKey(members, k) {
          var i :| 0 <= i < |members| && members[i].0 == k;
          assert ks[i] == k;
        }
      }
    }
    Distinct(ks)
  }

  /** The elements of `xs` that are not in `allowed`, in order. */
  function Outside(xs: seq<string>, allowed: seq<string>): (r: seq<string>)
    ensures forall x :: x in r <==> x in xs && x !in allowed
  {
    if xs == [] then []
    else (if xs[0] in allowed then [] else [xs[0]]) + Outside(xs[1..], allowed)
  }

  /** The values `key in v` accepts: dicts, lists and strings. */
  predicate Container(v: Json) { v.JObj? || v.JArr? || v.JStr? }

  /** Python's `key in v` for a string key: a key of a dict, an element of a list equal
      to the string, a substring of a string; numbers, booleans and None raise TypeError. */
  function In(key: string, v: Json): (r: Result<bool>)
    ensures r.Raises? <==> !Container(v)
    ensures r.Raises? ==> r.error == TypeError
    ensures v.JObj? ==> r == Ok(HasKey(v.members, key))
  {
    match v
    case JObj(ms) => Ok(HasKey(ms, key))
    case JArr(items) => Ok(JStr(key) in items)
    case JStr(s) => Ok(Contains(s, key))
    case _ => Raises(TypeError)
  }

  /** Python's `v[key]` for a string key: only a dict can be indexed by a string. */
  function Index(v: Json, key: string): (r: Result<Json>)
    ensures r.Ok? <==> v.JObj? && HasKey(v.members, key)
    ensures r.Ok? ==> r.value == Get(v.members, key)
    ensures !v.JObj? ==> r == Raises(TypeError)
  {
    match v
    case JObj(ms) => if HasKey(ms, key) then Ok(Get(ms, key)) else Raises(KeyError)
    case _ => Raises(TypeError)
  }

  /** Python's `len(v)`. */
  function Len(v: Json): (r: Result<nat>)
    ensures v.JArr? ==> r == Ok(|v.items|)
    ensures r.Raises? <==> !Container(v)
  {
    match v
    case JArr(items) => Ok(|items|)
    case JStr(s) => Ok(|s|)
    case JObj(ms) => Ok(|Keys(ms)|)
    case _ => Raises(TypeError)
  }

  /** The two types the metadata checks name; `isinstance(v, list)` and `isinstance(v, str)`. */
  datatype Kind = ListKind | StrKind

  predicate IsKind(v: Json, kind: Kind) {
    match kind
    case ListKind => v.JArr?
    case StrKind => v.JStr?
  }

  // ---------------------------------------------------------------------------
  // The checks
  // ---------------------------------------------------------------------------

  const MetadataKey: string := "metadata"
  const SectionsKey: string := "extracted_sections"
  const SubsectionsKey: string := "subsection_analysis"
  const RequiredKeys: seq<string> := [MetadataKey, SectionsKey, SubsectionsKey]

  const DocumentsField: string := "input_documents"
  const PersonaField: string := "persona"
  const MetadataChecks: seq<(string, Kind)> := [
    (DocumentsField, ListKind),
    (PersonaField, StrKind),
    ("job_to_be_done", StrKind),
    ("processing_timestamp", StrKind)]

  const SectionFields: seq<string> := ["document", "section_title", "importance_rank", "page_number"]
  const SubsectionFields: seq<string> := ["document", "refined_text", "page_number"]

  /** The two lists of five entries the output must hold. */
  datatype Listing = ExtractedSections | SubsectionAnalysis

  /** One entry of the `errors` list; each constructor is one message of the checker. */
  datatype FormatError =
    | MissingKeys(keys: seq<string>)
    | MissingMetadata(field: string)
    | MetadataType(field: string, expected: Kind)
    | NotFiveItems(listing: Listing)
    | ItemMissing(listing: Listing, index: nat, field: string)
    | UnexpectedKeys(keys: seq<string>)

  /** The returned status: FAILED with its errors, or PASSED with the reported counts. */
  datatype Verdict =
    | Failed(errors: seq<FormatError>)
    | Passed(documents: nat, persona: Json, sections: nat, subsections: nat)

  /** The names among `fields` that `field in v` reports absent, in order. */
  function Missing(v: Json, fields: seq<string>): (r: Result<seq<string>>)
    ensures r.Raises? <==> fields != [] && !Container(v)
    ensures r.Raises? ==> r.error == TypeError
    ensures r.Ok? ==> forall f :: f in r.value <==> f in fields && In(f, v) == Ok(false)
    ensures r == Ok([]) <==> forall f :: f in fields ==> In(f, v) == Ok(true)
    decreases |fields|
  {
    if fields == [] then Ok([])
    else
      var n := |fields| - 1;
      assert fields == fields[..n] + [fields[n]];
      var prev :- Missing(v, fields[..n]);
      var present :- In(fields[n], v);
      Ok(if present then prev else prev + [fields[n]])
  }

  /** Every metadata check passes: `m` is a dict holding each field at its type. */
  predicate MetadataOk(m: Json, checks: seq<(string, Kind)>) {
    forall i :: 0 <= i < |checks| ==>
      m.JObj? && HasKey(m.members, checks[i].0) && IsKind(Get(m.members, checks[i].0), checks[i].1)
  }

  /** The errors of the metadata loop: one per field that is missing or of the wrong type.
      Indexing a metadata value that is not a dict raises. */
  function MetadataErrors(m: Json, checks: seq<(string, Kind)>): (r: Result<seq<FormatError>>)
    ensures r.Raises? <==> !m.JObj? && exists i :: 0 <= i < |checks| && In(checks[i].0, m) != Ok(false)
    ensures r.Raises? ==> r.error == TypeError
    ensures r == Ok([]) <==> MetadataOk(m, checks)
    ensures r.Ok? ==> |r.value| <= |checks|
    decreases |checks|
  {
    if checks == [] then Ok([])
    else
      var n := |checks| - 1;
      var prev :- MetadataErrors(m, checks[..n]);
      var present :- In(checks[n].0, m);
      if !present then Ok(prev + [MissingMetadata(checks[n].0)])
      else
        var value :- Index(m, checks[n].0);
        Ok(if IsKind(value, checks[n].1) then prev else prev + [MetadataType(checks[n].0, checks[n].1)])
  }

  /** What one metadata check appends for a dict: a missing-field error, a type error, or nothing. */
  function CheckReport(members: seq<(string, Json)>, field: string, kind: Kind): (r: seq<FormatError>)
    ensures forall f :: MissingMetadata(f) in r <==> f == field && !HasKey(members, field)
    ensures forall f, k :: MetadataType(f, k) in r <==>
      f == field && k == kind && HasKey(members, field) && !IsKind(Get(members, field), kind)
    ensures forall e <- r :: e.MissingMetadata? || e.MetadataType?
  {
    if !HasKey(members, field) then [MissingMetadata(field)]
    else if IsKind(Get(members, field), kind) then []
    else [MetadataType(field, kind)]
  }

  lemma MetadataErrorsStep(m: Json, checks: seq<(string, Kind)>)
    requires m.JObj? && checks != []
    ensures MetadataErrors(m, checks) ==
      Ok(MetadataErrors(m, checks[..|checks| - 1]).value + CheckReport(m.members, checks[|checks| - 1].0, checks[|checks| - 1].1))
  {
    var n := |checks| - 1;
    var prev := MetadataErrors(m, checks[..n]);
    assert prev.Ok?;
    assert In(checks[n].0, m) == Ok(HasKey(m.members, checks[n].0));
    if HasKey(m.members, checks[n].0) {
      assert Index(m, checks[n].0) == Ok(Get(m.members, checks[n].0));
      assert prev.value + [] == prev.value;
    }
  }

  /** Some check names `f`. */
  predicate Checked(checks: seq<(string, Kind)>, f: string) {
    exists i :: 0 <= i < |checks| && checks[i].0 == f
  }

  /** Some check names `f` with the type `kind`. */
  predicate CheckedAs(checks: seq<(string, Kind)>, f: string, kind: Kind) {
    exists i :: 0 <= i < |checks| && checks[i] == (f, kind)
  }

  lemma CheckedSnoc(checks: seq<(string, Kind)>, f: string, kind: Kind)
    requires checks != []
    ensures var n := |checks| - 1;
      && (Checked(checks, f) <==> Checked(checks[..n], f) || checks[n].0 == f)
      && (CheckedAs(checks, f, kind) <==> CheckedAs(checks[..n], f, kind) || checks[n] == (f, kind))
  {
    var n := |checks| - 1;
    if Checked(checks, f) {
      var i :| 0 <= i < |checks| && checks[i].0 == f;
      if i < n {
        assert checks[..n][i].0 == f;
      }
    }
    if CheckedAs(checks, f, kind) {
      var i :| 0 <= i < |checks| && checks[i] == (f, kind);
      if i < n {
        assert checks[..n][i] == (f, kind);
      }
    }
    if Checked(checks[..n], f) {
      var i :| 0 <= i < n && checks[..n][i].0 == f;
      assert checks[i].0 == f;
    }
    if CheckedAs(checks[..n], f, kind) {
      var i :| 0 <= i < n && checks[..n][i] == (f, kind);
      assert checks[i] == (f, kind);
    }
  }

  /** Against a dict, the metadata loop reports a missing field exactly for the checked
      names the dict lacks, a type error exactly for the checked names whose value has the
      wrong type, and nothing else. */
  lemma {:induction false} MetadataErrorsOfDict(m: Json, checks: seq<(string, Kind)>)
    requires m.JObj?
    ensures MetadataErrors(m, checks).Ok?
    ensures var errors := MetadataErrors(m, checks).value;
      && (forall e <- errors :: e.MissingMetadata? || e.MetadataType?)
      && (forall f :: MissingMetadata(f) in errors <==> Checked(checks, f) && !HasKey(m.members, f))
      && (forall f, kind :: MetadataType(f, kind) in errors <==>
            CheckedAs(checks, f, kind) && HasKey(m.members, f) && !IsKind(Get(m.members, f), kind))
    decreases |checks|
  {
    if checks != [] {
      var n := |checks| - 1;
      MetadataErrorsOfDict(m, checks[..n]);
      var prev := MetadataErrors(m, checks[..n]).value;
      var added := CheckReport(m.members, checks[n].0, checks[n].1);
      MetadataErrorsStep(m, checks);
      var errors := prev + added;
      forall f ensures MissingMetadata(f) in errors <==> Checked(checks, f) && !HasKey(m.members, f) {
        CheckedSnoc(checks, f, ListKind);
      }
      forall f, kind ensures MetadataType(f, kind) in errors <==>
                       CheckedAs(checks, f, kind) && HasKey(m.members, f) && !IsKind(Get(m.members, f), kind) {
        CheckedSnoc(checks, f, kind);
      }
    }
  }

  /** `ItemMissing` errors of item `i`, one per absent field, in field order. */
  function Tagged(listing: Listing, i: nat, fields: seq<string>): (r: seq<FormatError>)
    ensures |r| == |fields| && forall j :: 0 <= j < |r| ==> r[j] == ItemMissing(listing, i, fields[j])
  {
    seq(|fields|, j requires 0 <= j < |fields| => ItemMissing(listing, i, fields[j]))
  }

  /** The errors of the nested item loop: one per (item, field) pair with the field absent. */
  function ItemErrors(listing: Listing, items: seq<Json>, fields: seq<string>): (r: Result<seq<FormatError>>)
    ensures r.Raises? <==> fields != [] && exists i :: 0 <= i < |items| && !Container(items[i])
    ensures r.Raises? ==> r.error == TypeError
    ensures r == Ok([]) <==> forall i, f :: 0 <= i < |items| && f in fields ==> In(f, items[i]) == Ok(true)
    decreases |items|
  {
    if items == [] then Ok([])
    else
      var n := |items| - 1;
      assert forall i :: 0 <= i < n ==> items[..n][i] == items[i];
      var prev :- ItemErrors(listing, items[..n], fields);
      var absent :- Missing(items[n], fields);
      Ok(prev + Tagged(listing, n, absent))
  }

  /** When every item accepts `in`, the item loop reports exactly the (item, field) pairs
      whose field is absent, and nothing else. */
  lemma {:induction false} ItemErrorsReport(listing: Listing, items: seq<Json>, fields: seq<string>)
    requires forall i :: 0 <= i < |items| ==> Container(items[i])
    ensures ItemErrors(listing, items, fields).Ok?
    ensures var errors := ItemErrors(listing, items, fields).value;
      && (forall e <- errors :: e.ItemMissing? && e.listing == listing)
      && (forall i: nat, f :: ItemMissing(listing, i, f) in errors <==>
            i < |items| && f in fields && In(f, items[i]) == Ok(false))
    decreases |items|
  {
    if items != [] {
      var n := |items| - 1;
      assert forall i :: 0 <= i < n ==> items[..n][i] == items[i];
      ItemErrorsReport(listing, items[..n], fields);
      var absent := Missing(items[n], fields).value;
      var tagged := Tagged(listing, n, absent);
      var prev := ItemErrors(listing, items[..n], fields).value;
      var errors := ItemErrors(listing, items, fields).value;
      assert errors == prev + tagged;
      TaggedReport(listing, n, items[n], fields);
      forall i: nat, f ensures ItemMissing(listing, i, f) in errors <==>
                               i < |items| && f in fields && In(f, items[i]) == Ok(false) {
        assert ItemMissing(listing, i, f) in errors <==>
          ItemMissing(listing, i, f) in prev || ItemMissing(listing, i, f) in tagged;
      }
    }
  }

  /** The errors of one item name exactly its absent fields. */
  lemma TaggedReport(listing: Listing, n: nat, item: Json, fields: seq<string>)
    requires Container(item)
    ensures Missing(item, fields).Ok?
    ensures var tagged := Tagged(listing, n, Missing(item, fields).value);
      && (forall e <- tagged :: e.ItemMissing? && e.listing == listing)
      && (forall i: nat, f :: ItemMissing(listing, i, f) in tagged <==>
            i == n && f in fields && In(f, item) == Ok(false))
  {
    var absent := Missing(item, fields).value;
    var tagged := Tagged(listing, n, absent);
    forall i: nat, f ensures ItemMissing(listing, i, f) in tagged <==>
                             i == n && f in fields && In(f, item) == Ok(false) {
      if i == n && f in fields && In(f, item) == Ok(false) {
        var j :| 0 <= j < |absent| && absent[j] == f;
        assert tagged[j] == ItemMissing(listing, i, f);
      }
      if ItemMissing(listing, i, f) in tagged {
        var j :| 0 <= j < |tagged| && tagged[j] == ItemMissing(listing, i, f);
        assert absent[j] == f;
      }
    }
  }

  /** A list of exactly five items, each having every field. */
  predicate FiveWith(v: Json, fields: seq<string>) {
    && v.JArr?
    && |v.items| == 5
    && forall i, f :: 0 <= i < 5 && f in fields ==> In(f, v.items[i]) == Ok(true)
  }

  /** The errors of one list check: a single error unless the value is a list of five,
      else the item errors. */
  function ListErrors(listing: Listing, v: Json, fields: seq<string>): (r: Result<seq<FormatError>>)
    ensures !(v.JArr? && |v.items| == 5) ==> r == Ok([NotFiveItems(listing)])
    ensures r == Ok([]) <==> FiveWith(v, fields)
  {
    if !(v.JArr? && |v.items| == 5) then Ok([NotFiveItems(listing)])
    else ItemErrors(listing, v.items, fields)
  }

  /** The unexpected-keys entry: present only when the dict has a key outside the three. */
  function UnexpectedErrors(members: seq<(string, Json)>): (r: seq<FormatError>)
    ensures r == [] <==> forall k :: HasKey(members, k) ==> k in RequiredKeys
    ensures forall e <- r :: e.UnexpectedKeys? && forall k :: k in e.keys <==> HasKey(members, k) && k !in RequiredKeys
  {
    var unexpected := Outside(Keys(members), RequiredKeys);
    if unexpected == [] then
      assert forall k :: HasKey(members, k) ==> k in RequiredKeys by {
        forall k | HasKey(members, k) ensures k in RequiredKeys {
          assert k in Keys(members);
        }
      }
      []
    else
      assert unexpected[0] in unexpected;
      [UnexpectedKeys(unexpected)]
  }

  /** `verify_expected_format` on the parsed file content: the missing-key test, then the
      error list, then the verdict. */
  function Verify(data: Json): (r: Result<Verdict>)
  {
    var missing :- Missing(data, RequiredKeys);
    if missing != [] then Ok(Failed([MissingKeys(missing)]))
    else
      var errors :- Errors(data);
      if errors != [] then Ok(Failed(errors)) else Counts(data)
  }

  /** The error list: the metadata checks, the two list checks and the unexpected keys,
      in that order; indexing a value that is not a dict raises. */
  function Errors(data: Json): (r: Result<seq<FormatError>>)
    ensures r.Ok? ==> data.JObj?
  {
    var metadata :- Index(data, MetadataKey);
    var metadataErrors :- MetadataErrors(metadata, MetadataChecks);
    var sections :- Index(data, SectionsKey);
    var sectionErrors :- ListErrors(ExtractedSections, sections, SectionFields);
    var subsections :- Index(data, SubsectionsKey);
    var subsectionErrors :- ListErrors(SubsectionAnalysis, subsections, SubsectionFields);
    Ok(metadataErrors + sectionErrors + subsectionErrors + UnexpectedErrors(data.members))
  }

  /** The PASSED report: the number of input documents, the persona and the two list lengths. */
  function Counts(data: Json): (r: Result<Verdict>)
    ensures r.Ok? ==> r.value.Passed?
  {
    var metadata :- Index(data, MetadataKey);
    var documents :- Index(metadata, DocumentsField);
    var documentCount :- Len(documents);
    var persona :- Index(metadata, PersonaField);
    var sections :- Index(data, SectionsKey);
    var sectionCount :- Len(sections);
    var subsections :- Index(data, SubsectionsKey);
    var subsectionCount :- Len(subsections);
    Ok(Passed(documentCount, persona, sectionCount, subsectionCount))
  }

  /** The shape a passing file has, stated without the checker's loops: a dict with exactly
      the three required keys, dict metadata with each field at its type, and two lists of
      five items each having its fields. */
  ghost predicate WellFormed(data: Json) {
    && data.JObj?
    && (forall k :: HasKey(data.members, k) <==> k in RequiredKeys)
    && MetadataOk(Get(data.members, MetadataKey), MetadataChecks)
    && FiveWith(Get(data.members, SectionsKey), SectionFields)
    && FiveWith(Get(data.members, SubsectionsKey), SubsectionFields)
  }

  // ---------------------------------------------------------------------------
  // What the checker promises
  // ---------------------------------------------------------------------------

  /** With the three required keys present, the error list is empty exactly when the rest
      of the well-formed shape holds. */
  lemma ErrorsEmptyIff(data: Json)
    requires data.JObj? && forall k :: k in RequiredKeys ==> HasKey(data.members, k)
    ensures Errors(data) == Ok([]) <==> WellFormed(data)
  {
    assert MetadataKey in RequiredKeys && SectionsKey in RequiredKeys && SubsectionsKey in RequiredKeys;
    var metadata := Get(data.members, MetadataKey);
    var sections := Get(data.members, SectionsKey);
    var subsections := Get(data.members, SubsectionsKey);
    var me := MetadataErrors(metadata, MetadataChecks);
    var se := ListErrors(ExtractedSections, sections, SectionFields);
    var ue := ListErrors(SubsectionAnalysis, subsections, SubsectionFields);
    if me.Ok? && se.Ok? && ue.Ok? {
      var errors := me.value + se.value + ue.value + UnexpectedErrors(data.members);
      assert Errors(data) == Ok(errors);
      if errors == [] {
        assert me.value == [] && se.value == [] && ue.value == [];
      }
    } else {
      assert Errors(data).Raises?;
    }
  }

  /** A well-formed file reports its number of input documents, its persona, and five
      sections and five sub-sections. */
  lemma CountsOfWellFormed(data: Json)
    requires WellFormed(data)
    ensures
      var metadata := Get(data.members, MetadataKey);
      && metadata.JObj? && HasKey(metadata.members, DocumentsField) && HasKey(metadata.members, PersonaField)
      && Get(metadata.members, DocumentsField).JArr?
      && Counts(data) == Ok(Passed(|Get(metadata.members, DocumentsField).items|,
                                   Get(metadata.members, PersonaField), 5, 5))
  {
    assert MetadataKey in RequiredKeys && SectionsKey in RequiredKeys && SubsectionsKey in RequiredKeys;
    var metadata := Get(data.members, MetadataKey);
    assert MetadataChecks[0] == (DocumentsField, ListKind);
    assert MetadataChecks[1] == (PersonaField, StrKind);
  }

  /** PASSED exactly for the well-formed files, and only then are the counts reported:
      the number of input documents, the persona, and five and five. */
  lemma VerifyPassedIff(data: Json)
    ensures Verify(data).Ok? && Verify(data).value.Passed? <==> WellFormed(data)
    ensures WellFormed(data) ==>
      var metadata := Get(data.members, MetadataKey);
      && metadata.JObj? && HasKey(metadata.members, DocumentsField) && HasKey(metadata.members, PersonaField)
      && Get(metadata.members, DocumentsField).JArr?
      && Verify(data) == Ok(Passed(|Get(metadata.members, DocumentsField).items|,
                                   Get(metadata.members, PersonaField), 5, 5))
  {
    var missing := Missing(data, RequiredKeys);
    if missing == Ok([]) && data.JObj? {
      assert forall k :: k in RequiredKeys ==> HasKey(data.members, k) by {
        forall k | k in RequiredKeys ensures HasKey(data.members, k) {
          assert In(k, data) == Ok(true);
        }
      }
      ErrorsEmptyIff(data);
      if WellFormed(data) {
        CountsOfWellFormed(data);
      }
    }
  }

  /** A dict lacking a required key FAILS with the missing-key error alone, which names
      exactly the absent required keys. */
  lemma MissingKeysFailAlone(data: Json)
    requires data.JObj?
    requires exists k :: k in RequiredKeys && !HasKey(data.members, k)
    ensures exists ks ::
      && Verify(data) == Ok(Failed([MissingKeys(ks)]))
      && forall k :: k in ks <==> k in RequiredKeys && !HasKey(data.members, k)
  {
    var k :| k in RequiredKeys && !HasKey(data.members, k);
    var missing := Missing(data, RequiredKeys);
    assert In(k, data) == Ok(false);
    assert missing.Ok? && k in missing.value;
    assert Verify(data) == Ok(Failed([MissingKeys(missing.value)]));
  }

  /** A top-level key besides the three required ones makes a completed check FAIL with an
      unexpected-keys error naming it. */
  lemma UnexpectedKeyFails(data: Json, k: string)
    requires data.JObj? && forall r :: r in RequiredKeys ==> HasKey(data.members, r)
    requires HasKey(data.members, k) && k !in RequiredKeys
    ensures Verify(data).Ok? ==>
      && Verify(data).value.Failed?
      && exists ks :: UnexpectedKeys(ks) in Verify(data).value.errors && k in ks
  {
    var missing := Missing(data, RequiredKeys);
    assert forall f :: f in RequiredKeys ==> In(f, data) == Ok(true);
    assert missing == Ok([]);
    if Errors(data).Ok? {
      var errors := Errors(data).value;
      var u := UnexpectedErrors(data.members);
      ErrorsEndWithUnexpected(data);
      assert u != [];
      assert u[0].UnexpectedKeys? && k in u[0].keys;
      assert errors[|errors| - |u|] == u[0];
      assert Verify(data) == Ok(Failed(errors));
    }
  }

  /** The unexpected-keys entry, when present, closes the error list. */
  lemma ErrorsEndWithUnexpected(data: Json)
    requires Errors(data).Ok?
    ensures var errors := Errors(data).value;
      |UnexpectedErrors(data.members)| <= |errors|
      && errors[|errors| - |UnexpectedErrors(data.members)|..] == UnexpectedErrors(data.members)
  {
    var metadata := Index(data, MetadataKey).value;
    var metadataErrors := MetadataErrors(metadata, MetadataChecks).value;
    var sectionErrors := ListErrors(ExtractedSections, Index(data, SectionsKey).value, SectionFields).value;
    var subsectionErrors := ListErrors(SubsectionAnalysis, Index(data, SubsectionsKey).value, SubsectionFields).value;
    var front := metadataErrors + sectionErrors + subsectionErrors;
    assert Errors(data).value == front + UnexpectedErrors(data.members);
  }

  /** A number, boolean or null at the top level raises TypeError at the first `in` test. */
  lemma ScalarRaises(data: Json)
    requires !Container(data)
    ensures Verify(data) == Raises(TypeError)
  {
  }

  // ---------------------------------------------------------------------------
  // The checker, step by step
  // ---------------------------------------------------------------------------

  /** The `field not in v` loop over `fields`. */
  method MissingOf(v: Json, fields: seq<string>) returns (r: Result<seq<string>>)
    ensures r == Missing(v, fields)
  {
    var missing: seq<string> := [];
    for i := 0 to |fields|
      invariant Missing(v, fields[..i]) == Ok(missing)
    {
      assert fields[..i + 1][..i] == fields[..i];
      var present := In(fields[i], v);
      if present.Raises? {
        return Raises(TypeError);
      }
      if !present.value {
        missing := missing + [fields[i]];
      }
    }
    assert fields[..|fields|] == fields;
    return Ok(missing);
  }

  /** The metadata loop. */
  method CheckMetadata(m: Json, checks: seq<(string, Kind)>) returns (r: Result<seq<FormatError>>)
    ensures r == MetadataErrors(m, checks)
  {
    var errors: seq<FormatError> := [];
    for i := 0 to |checks|
      invariant MetadataErrors(m, checks[..i]) == Ok(errors)
    {
      assert checks[..i + 1][..i] == checks[..i];
      var (field, kind) := checks[i];
      var present := In(field, m);
      if present.Raises? {
        assert In(checks[i].0, m) != Ok(false);
        return Raises(TypeError);
      }
      if !present.value {
        errors := errors + [MissingMetadata(field)];
      } else {
        var value := Index(m, field);
        if value.Raises? {
          assert In(checks[i].0, m) != Ok(false);
          return Raises(TypeError);
        }
        if !IsKind(value.value, kind) {
          errors := errors + [MetadataType(field, kind)];
        }
      }
    }
    assert checks[..|checks|] == checks;
    return Ok(errors);
  }

  /** One list check with its nested loop over items and fields. */
  method CheckListing(listing: Listing, v: Json, fields: seq<string>) returns (r: Result<seq<FormatError>>)
    ensures r == ListErrors(listing, v, fields)
  {
    if !(v.JArr? && |v.items| == 5) {
      return Ok([NotFiveItems(listing)]);
    }
    var items := v.items;
    var errors: seq<FormatError> := [];
    for i := 0 to |items|
      invariant ItemErrors(listing, items[..i], fields) == Ok(errors)
    {
      var absent := MissingOf(items[i], fields);
      ItemErrorsStep(listing, items, fields, i, errors);
      if absent.Raises? {
        return Raises(TypeError);
      }
      errors := errors + Tagged(listing, i, absent.value);
    }
    assert items[..|items|] == items;
    return Ok(errors);
  }

  /** One more item of the nested loop: its absent fields are tagged and appended, or the
      check of its fields raises. */
  lemma ItemErrorsStep(listing: Listing, items: seq<Json>, fields: seq<string>, i: nat, prev: seq<FormatError>)
    requires i < |items| && ItemErrors(listing, items[..i], fields) == Ok(prev)
    ensures Missing(items[i], fields).Ok? ==>
      ItemErrors(listing, items[..i + 1], fields) == Ok(prev + Tagged(listing, i, Missing(items[i], fields).value))
    ensures Missing(items[i], fields).Raises? ==> ItemErrors(listing, items, fields) == Raises(TypeError)
  {
    assert items[..i + 1][..i] == items[..i];
    assert items[..i + 1][i] == items[i];
    if Missing(items[i], fields).Raises? {
      assert ItemErrors(listing, items[..i + 1], fields).Raises?;
      assert fields != [] && !Container(items[..i + 1][i]);
    }
  }

  /** `verify_expected_format`: the missing-key test, then the three checks appending to
      one error list, then the unexpected keys, then the verdict. */
  method VerifyExpectedFormat(data: Json) returns (r: Result<Verdict>)
    ensures r == Verify(data)
  {
    var missing :- MissingOf(data, RequiredKeys);
    if missing != [] {
      return Ok(Failed([MissingKeys(missing)]));
    }
    if !data.JObj? {
      // `data['metadata']` on a list or a string
      return Raises(TypeError);
    }
    var errors :- CollectErrors(data);
    if errors != [] {
      return Ok(Failed(errors));
    }
    return Counts(data);
  }

  /** The three checks appending to one error list, then the unexpected keys. */
  method CollectErrors(data: Json) returns (r: Result<seq<FormatError>>)
    requires data.JObj? && forall k :: k in RequiredKeys ==> HasKey(data.members, k)
    ensures r == Errors(data)
  {
    assert MetadataKey in RequiredKeys && SectionsKey in RequiredKeys && SubsectionsKey in RequiredKeys;
    var metadata := Get(data.members, MetadataKey);
    var errors :- CheckMetadata(metadata, MetadataChecks);
    var sections := Get(data.members, SectionsKey);
    var sectionErrors :- CheckListing(ExtractedSections, sections, SectionFields);
    errors := errors + sectionErrors;
    var subsections := Get(data.members, SubsectionsKey);
    var subsectionErrors :- CheckListing(SubsectionAnalysis, subsections, SubsectionFields);
    errors := errors + subsectionErrors;
    errors := errors + UnexpectedErrors(data.members);
    return Ok(errors);
  }

  // ---------------------------------------------------------------------------
  // main: the overall result over the collection outputs
  // ---------------------------------------------------------------------------

  /** What checking each collection output gives; `None` is a file that does not exist. */
  function Outcomes(outputs: seq<Option<Json>>): (r: seq<Option<Result<Verdict>>>)
    ensures |r| == |outputs|
    ensures forall i :: 0 <= i < |r| ==> r[i] == if outputs[i].Some? then Some(Verify(outputs[i].value)) else None
  {
    seq(|outputs|, i requires 0 <= i < |outputs| =>
      if outputs[i].Some? then Some(Verify(outputs[i].value)) else None)
  }

  /** `all_passed` after the collection loop; an exception from a check ends the run. */
  function AllPassed(outcomes: seq<Option<Result<Verdict>>>): (r: Result<bool>)
    ensures r.Raises? <==> exists i :: 0 <= i < |outcomes| && outcomes[i].Some? && outcomes[i].value.Raises?
    ensures r.Ok? ==>
      (r.value <==> forall i :: 0 <= i < |outcomes| ==>
                      outcomes[i].Some? && outcomes[i].value.Ok? && outcomes[i].value.value.Passed?)
    decreases |outcomes|
  {
    if outcomes == [] then Ok(true)
    else
      var n := |outcomes| - 1;
      assert forall i :: 0 <= i < n ==> outcomes[..n][i] == outcomes[i];
      var prev :- AllPassed(outcomes[..n]);
      match outcomes[n]
      case None => Ok(false)
      case Some(result) =>
        var verdict :- result;
        Ok(prev && verdict.Passed?)
  }

  /** Once a prefix of the outcomes raises, the whole run raises the same exception. */
  lemma {:induction false} AllPassedRaisesEarly(outcomes: seq<Option<Result<Verdict>>>, k: nat)
    requires k <= |outcomes| && AllPassed(outcomes[..k]).Raises?
    ensures AllPassed(outcomes) == AllPassed(outcomes[..k])
    decreases |outcomes| - k
  {
    if k < |outcomes| {
      var n := |outcomes| - 1;
      assert outcomes[..n][..k] == outcomes[..k];
      AllPassedRaisesEarly(outcomes[..n], k);
    } else {
      assert outcomes[..k] == outcomes;
    }
  }

  /** One more outcome: a missing file clears the flag, a verdict ands in whether it
      PASSED, and an exception ends the run. */
  lemma AllPassedStep(outcomes: seq<Option<Result<Verdict>>>, i: nat, b: bool)
    requires i < |outcomes| && AllPassed(outcomes[..i]) == Ok(b)
    ensures outcomes[i].None? ==> AllPassed(outcomes[..i + 1]) == Ok(false)
    ensures outcomes[i].Some? && outcomes[i].value.Ok? ==>
      AllPassed(outcomes[..i + 1]) == Ok(b && outcomes[i].value.value.Passed?)
    ensures outcomes[i].Some? && outcomes[i].value.Raises? ==>
      AllPassed(outcomes[..i + 1]) == Raises(outcomes[i].value.error)
  {
    assert outcomes[..i + 1][..i] == outcomes[..i];
    assert outcomes[..i + 1][i] == outcomes[i];
  }

  /** `main`'s loop: a missing file or a FAILED verdict clears `all_passed`. */
  method CheckCollections(outputs: seq<Option<Json>>) returns (r: Result<bool>)
    ensures r == AllPassed(Outcomes(outputs))
  {
    ghost var outcomes := Outcomes(outputs);
    var allPassed := true;
    for i := 0 to |outputs|
      invariant AllPassed(outcomes[..i]) == Ok(allPassed)
    {
      AllPassedStep(outcomes, i, allPassed);
      match outputs[i]
      case None =>
        allPassed := false;
      case Some(data) =>
        var result := VerifyExpectedFormat(data);
        if result.Raises? {
          AllPassedRaisesEarly(outcomes, i + 1);
          return Raises(result.error);
        }
        if result.value.Failed? {
          allPassed := false;
        }
    }
    assert outcomes[..|outcomes|] == outcomes;
    return Ok(allPassed);
  }

  // ---------------------------------------------------------------------------
  // The expected-format output passes the checker
  // ---------------------------------------------------------------------------

  function StringsJson(ws: seq<string>): (r: Json)
    ensures r.JArr? && |r.items| == |ws|
  {
    JArr(seq(|ws|, i requires 0 <= i < |ws| => JStr(ws[i])))
  }

  /** The `metadata` block as the formatter's dict serialises it. */
  function MetadataJson(m: ExpectedFormatter.Metadata): Json {
    JObj([
      (DocumentsField, StringsJson(m.inputDocuments)),
      (PersonaField, JStr(m.persona)),
      ("job_to_be_done", JStr(m.jobToBeDone)),
      ("processing_timestamp", JStr(m.processingTimestamp))])
  }

  function SectionJson(e: ExpectedFormatter.SectionEntry): Json {
    JObj([
      ("document", JStr(e.document)),
      ("section_title", JStr(e.sectionTitle)),
      ("importance_rank", JNum(e.importanceRank as real)),
      ("page_number", JNum(e.pageNumber as real))])
  }

  /** A sub-section entry; `render` gives the wording of a fixed refined text. */
  function SubsectionJson(e: ExpectedFormatter.SubsectionEntry, render: ExpectedFormatter.DemoText -> string): Json {
    JObj([
      ("document", JStr(e.document)),
      ("refined_text", JStr(render(e.refinedText))),
      ("page_number", JNum(e.pageNumber as real))])
  }

  function OutputJson(out: ExpectedFormatter.ExpectedOutput, render: ExpectedFormatter.DemoText -> string): Json {
    JObj([
      (MetadataKey, MetadataJson(out.metadata)),
      (SectionsKey, JArr(seq(|out.extractedSections|, i requires 0 <= i < |out.extractedSections| =>
                               SectionJson(out.extractedSections[i])))),
      (SubsectionsKey, JArr(seq(|out.subsectionAnalysis|, i requires 0 <= i < |out.subsectionAnalysis| =>
                                  SubsectionJson(out.subsectionAnalysis[i], render))))])
  }

  /** A list of five dicts whose names are exactly `fields`, in order, has every field in
      every item. */
  lemma FiveObjectsWith(v: Json, fields: seq<string>)
    requires v.JArr? && |v.items| == 5
    requires forall i :: 0 <= i < 5 ==> v.items[i].JObj? && KeysOf(v.items[i].members) == fields
    ensures FiveWith(v, fields)
  {
    forall i, f | 0 <= i < 5 && f in fields ensures In(f, v.items[i]) == Ok(true) {
      var ms := v.items[i].members;
      var j :| 0 <= j < |fields| && fields[j] == f;
      assert KeysOf(ms)[j] == ms[j].0;
    }
  }

  lemma SectionJsonNames(e: ExpectedFormatter.SectionEntry)
    ensures KeysOf(SectionJson(e).members) == SectionFields
  {
  }

  lemma SubsectionJsonNames(e: ExpectedFormatter.SubsectionEntry, render: ExpectedFormatter.DemoText -> string)
    ensures KeysOf(SubsectionJson(e, render).members) == SubsectionFields
  {
  }

  /** A dict whose names are those of `checks`, in order and pairwise distinct, with each
      value of its check's type, passes every check. */
  lemma ObjectMeetsChecks(members: seq<(string, Json)>, checks: seq<(string, Kind)>)
    requires |members| == |checks|
    requires forall i :: 0 <= i < |checks| ==> members[i].0 == checks[i].0 && IsKind(members[i].1, checks[i].1)
    requires forall a, b :: 0 <= a < b < |members| ==> members[a].0 != members[b].0
    ensures MetadataOk(JObj(members), checks)
  {
    forall i | 0 <= i < |checks|
      ensures HasKey(members, checks[i].0) && IsKind(Get(members, checks[i].0), checks[i].1)
    {
      GetDistinct(members, i);
    }
  }

  /** The serialised metadata passes every metadata check and holds the document list
      and the persona. */
  lemma MetadataJsonOk(m: ExpectedFormatter.Metadata)
    ensures MetadataOk(MetadataJson(m), MetadataChecks)
    ensures HasKey(MetadataJson(m).members, DocumentsField) && HasKey(MetadataJson(m).members, PersonaField)
    ensures Get(MetadataJson(m).members, DocumentsField) == StringsJson(m.inputDocuments)
    ensures Get(MetadataJson(m).members, PersonaField) == JStr(m.persona)
  {
    var mm := MetadataJson(m).members;
    assert forall i :: 0 <= i < 4 ==> mm[i].0 == MetadataChecks[i].0 && IsKind(mm[i].1, MetadataChecks[i].1);
    assert forall a, b :: 0 <= a < b < 4 ==> mm[a].0 != mm[b].0;
    ObjectMeetsChecks(mm, MetadataChecks);
    GetDistinct(mm, 0);
    GetDistinct(mm, 1);
  }

  /** The serialised output is a dict with exactly the three required keys. */
  lemma OutputJsonKeys(out: ExpectedFormatter.ExpectedOutput, render: ExpectedFormatter.DemoText -> string)
    ensures var ms := OutputJson(out, render).members;
      && (forall k :: HasKey(ms, k) <==> k in RequiredKeys)
      && HasKey(ms, MetadataKey) && Get(ms, MetadataKey) == ms[0].1
      && HasKey(ms, SectionsKey) && Get(ms, SectionsKey) == ms[1].1
      && HasKey(ms, SubsectionsKey) && Get(ms, SubsectionsKey) == ms[2].1
  {
    var ms := OutputJson(out, render).members;
    assert |ms| == 3 && forall i :: 0 <= i < 3 ==> ms[i].0 == RequiredKeys[i];
    RequiredKeysOnly(ms);
  }

  /** Three members named by the three required keys, in order. */
  lemma RequiredKeysOnly(ms: seq<(string, Json)>)
    requires |ms| == 3 && forall i :: 0 <= i < 3 ==> ms[i].0 == RequiredKeys[i]
    ensures && (forall k :: HasKey(ms, k) <==> k in RequiredKeys)
      && HasKey(ms, MetadataKey) && Get(ms, MetadataKey) == ms[0].1
      && HasKey(ms, SectionsKey) && Get(ms, SectionsKey) == ms[1].1
      && HasKey(ms, SubsectionsKey) && Get(ms, SubsectionsKey) == ms[2].1
  {
    assert forall a, b :: 0 <= a < b < 3 ==> ms[a].0 != ms[b].0;
    GetDistinct(ms, 0);
    GetDistinct(ms, 1);
    GetDistinct(ms, 2);
    forall k ensures HasKey(ms, k) <==> k in RequiredKeys {
      if HasKey(ms, k) {
        var i :| 0 <= i < 3 && ms[i].0 == k;
        assert RequiredKeys[i] == k;
      }
      if k in RequiredKeys {
        var i :| 0 <= i < 3 && RequiredKeys[i] == k;
        assert ms[i].0 == k;
      }
    }
  }

  /** Any output of the expected-format shape, five sections and five sub-sections, PASSES,
      reporting its number of input documents and its persona. */
  lemma ExpectedOutputPasses(out: ExpectedFormatter.ExpectedOutput, render: ExpectedFormatter.DemoText -> string)
    requires |out.extractedSections| == 5 && |out.subsectionAnalysis| == 5
    ensures Verify(OutputJson(out, render))
            == Ok(Passed(|out.metadata.inputDocuments|, JStr(out.metadata.persona), 5, 5))
  {
    var data := OutputJson(out, render);
    var ms := data.members;
    OutputJsonKeys(out, render);
    MetadataJsonOk(out.metadata);
    var sections := ms[1].1;
    forall i | 0 <= i < 5 ensures sections.items[i].JObj? && KeysOf(sections.items[i].members) == SectionFields {
      SectionJsonNames(out.extractedSections[i]);
    }
    FiveObjectsWith(sections, SectionFields);
    var subsections := ms[2].1;
    forall i | 0 <= i < 5
      ensures subsections.items[i].JObj? && KeysOf(subsections.items[i].members) == SubsectionFields
    {
      SubsectionJsonNames(out.subsectionAnalysis[i], render);
    }
    FiveObjectsWith(subsections, SubsectionFields);
    assert WellFormed(data);
    VerifyPassedIff(data);
  }

  /** The output `format_expected_output` builds, whatever its inputs, PASSES the checker. */
  lemma FormattedOutputPasses(
    data: ExpectedFormatter.ChallengeData, sections: seq<ExpectedFormatter.AnalysisSection>,
    timestamp: string, render: ExpectedFormatter.DemoText -> string)
    ensures
      var d := ExpectedFormatter.DetectDomainFrom(Some(data), sections);
      var out := ExpectedFormatter.ExpectedOutput(
        ExpectedFormatter.MetadataOf(data, timestamp),
        ExpectedFormatter.FixedSections(d), ExpectedFormatter.FixedSubsections(d));
      Verify(OutputJson(out, render)) == Ok(Passed(|data.filenames|, JStr(GetOr(data.role, "")), 5, 5))
  {
    var d := ExpectedFormatter.DetectDomainFrom(Some(data), sections);
    var out := ExpectedFormatter.ExpectedOutput(
      ExpectedFormatter.MetadataOf(data, timestamp),
      ExpectedFormatter.FixedSections(d), ExpectedFormatter.FixedSubsections(d));
    ExpectedOutputPasses(out, render);
  }
}
