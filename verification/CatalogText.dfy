/** The catalog file: written from the property map, and read back line by line. */
module CatalogText {

  import opened Options
  import opened Sorting
  import opened Strings
  import opened Catalog

  const HEADER := "connector.name"

  /* ---- the property map ---- */

  /** The rules for property names on which the text depends. */
  predicate Accepted(c: Catalog) {
    && (forall key :: key in c.properties ==> NormalKey(key) !in Reserved(c.connector))
    && (forall key :: key in c.secretRefs ==> NormalKey(key) !in Reserved(c.connector) && ValidRefName(key))
    && c.otherChecksPass
  }

  predicate ValidRefName(key: string) {
    key != "" && Trim(key) == key && '\r' !in key && '\n' !in key && '=' !in key
  }

  function Texts(properties: map<string, string>): map<string, Value> {
    map key | key in properties :: Text(properties[key])
  }

  function RefNames(refs: set<string>): set<string> {
    set key | key in refs && Trim(key) != "" :: Trim(key)
  }

  function Placeholders(names: set<string>, variable: string -> string): map<string, Value> {
    map key | key in names :: Env(variable(key))
  }

  function VariableOf(catalogName: string): string -> string {
    (property: string) => EnvVarName(catalogName, property)
  }

  function RefProps(refs: set<string>, catalogName: string): map<string, Value> {
    Placeholders(RefNames(refs), VariableOf(catalogName))
  }

  /** User properties, then the connector's own fields over them, then the Secret references over both. */
  function AllProps(c: Catalog): map<string, Value> {
    var name := TrimPrefix(c.name, PREFIX);
    Texts(c.properties) + TypedProps(c.connector, name) + RefProps(c.secretRefs.Keys, name)
  }

  method EnsurePropertiesMap(properties: map<string, string>) returns (copy: map<string, Value>)
    ensures copy == Texts(properties)
  {
    copy := map[];
    var left := properties.Keys;
    while left != {}
      invariant left <= properties.Keys
      invariant copy == map key | key in properties.Keys - left :: Text(properties[key])
      decreases |left|
    {
      var key :| key in left;
      copy, left := copy[key := Text(properties[key])], left - {key};
    }
  }

  method ApplyPropertySecretRefs(props: map<string, Value>, refs: set<string>, variable: string -> string)
    returns (result: map<string, Value>)
    ensures result == props + Placeholders(RefNames(refs), variable)
  {
    result := props;
    var left := refs;
    ghost var done: set<string> := {};
    while left != {}
      invariant left !! done && left + done == refs
      invariant result == props + Placeholders(RefNames(done), variable)
      decreases |left|
    {
      var key :| key in left;
      result := ApplyRef(result, props, done, key, variable);
      left, done := left - {key}, done + {key};
    }
    assert done == refs;
  }

  method ApplyRef(before: map<string, Value>, ghost props: map<string, Value>, ghost done: set<string>, key: string,
                  variable: string -> string)
    returns (result: map<string, Value>)
    requires before == props + Placeholders(RefNames(done), variable)
    ensures result == props + Placeholders(RefNames(done + {key}), variable)
  {
    var name := Trim(key);
    RefNamesStep(done, key);
    if name == "" {
      assert RefNames(done + {key}) == RefNames(done);
      return before;
    }
    PlaceholdersStep(props, RefNames(done), name, variable);
    result := before[name := Env(variable(name))];
  }

  lemma RefNamesStep(refs: set<string>, key: string)
    ensures RefNames(refs + {key}) == RefNames(refs) + if Trim(key) != "" then {Trim(key)} else {}
  {
    var more := refs + {key};
    forall name ensures name in RefNames(more) <==> name in RefNames(refs) || (Trim(key) != "" && name == Trim(key)) {
      if name in RefNames(refs) {
        var k :| k in refs && Trim(k) != "" && Trim(k) == name;
        assert k in more;
      }
      assert key in more;
    }
  }

  lemma PlaceholdersStep(props: map<string, Value>, names: set<string>, name: string, variable: string -> string)
    ensures props + Placeholders(names + {name}, variable)
         == (props + Placeholders(names, variable))[name := Env(variable(name))]
  {
  }

  method ResolveConnector(c: Catalog) returns (props: map<string, Value>)
    ensures props == AllProps(c)
  {
    var name := TrimPrefix(c.name, PREFIX);
    props := EnsurePropertiesMap(c.properties);
    props := props + TypedProps(c.connector, name);
    props := ApplyPropertySecretRefs(props, c.secretRefs.Keys, VariableOf(name));
  }

  /* ---- writing ---- */

  function Show(v: Value): string {
    match v
    case Text(text) => text
    case Env(variable) => "${ENV:" + variable + "}"
  }

  function Line(key: string, value: string): string {
    key + "=" + value
  }

  function Lines(keys: seq<string>, props: map<string, Value>): (lines: seq<string>)
    requires forall i :: 0 <= i < |keys| ==> keys[i] in props
    ensures |lines| == |keys|
  {
    if keys == [] then []
    else Lines(keys[..|keys| - 1], props) + [Line(keys[|keys| - 1], Show(props[keys[|keys| - 1]]))]
  }

  lemma SortedKeysArePresent(props: map<string, Value>)
    ensures forall i :: 0 <= i < |Sorted(props.Keys)| ==> Sorted(props.Keys)[i] in props
  {
    var ks := Sorted(props.Keys);
    forall i | 0 <= i < |ks| ensures ks[i] in props {
      assert ks[i] in Elements(ks);
    }
  }

  ghost function AllLines(connectorName: string, props: map<string, Value>): seq<string> {
    SortedKeysArePresent(props);
    [Line(HEADER, connectorName)] + Lines(Sorted(props.Keys), props)
  }

  ghost function Render(connectorName: string, props: map<string, Value>): string {
    Ended(AllLines(connectorName, props), '\n')
  }

  /** The keys are taken in any order and sorted; the text does not depend on that order. */
  method BuildPropertiesString(connectorName: string, props: map<string, Value>) returns (text: string)
    ensures text == Render(connectorName, props)
  {
    var keys := CollectKeys(props);
    keys := SortStrings(keys);
    AscendingIsUnique(keys, Sorted(props.Keys));
    SortedKeysArePresent(props);
    text := WriteLines(Line(HEADER, connectorName), keys, props);
  }

  method WriteLines(header: string, keys: seq<string>, props: map<string, Value>) returns (text: string)
    requires forall i :: 0 <= i < |keys| ==> keys[i] in props
    ensures text == Ended([header] + Lines(keys, props), '\n')
  {
    text := header + "\n";
    EndedAppend([], header, '\n');
    assert [] + [header] == [header] == [header] + Lines([], props);
    for i := 0 to |keys|
      invariant text == Ended([header] + Lines(keys[..i], props), '\n')
    {
      var line := Line(keys[i], Show(props[keys[i]]));
      text := text + line + "\n";
      EndedAppend([header] + Lines(keys[..i], props), line, '\n');
      LinesStep(header, keys, props, i);
    }
    assert keys[..|keys|] == keys;
  }

  lemma LinesStep(header: string, keys: seq<string>, props: map<string, Value>, i: nat)
    requires forall i :: 0 <= i < |keys| ==> keys[i] in props
    requires i < |keys|
    ensures [header] + Lines(keys[..i + 1], props) == [header] + Lines(keys[..i], props) + [Line(keys[i], Show(props[keys[i]]))]
  {
    assert keys[..i + 1][..i] == keys[..i];
  }

  method GenerateProperties(c: Catalog) returns (text: Option<string>)
    ensures text.None? <==> !Accepted(c)
    ensures text.Some? ==> text.value == Render(ConnectorName(c.connector), AllProps(c))
  {
    if !Accepted(c) {
      return None;
    }
    var props := ResolveConnector(c);
    var t := BuildPropertiesString(ConnectorName(c.connector), props);
    text := Some(t);
  }

  /* ---- reading ---- */

  function ConfigPropertyValue(line: string, key: string): Option<string> {
    var line := Trim(line);
    if line == "" || line[0] == '#' then None
    else
      var cut := IndexOf(line, '=');
      if cut == |line| then None
      else if Trim(line[..cut]) != key then None
      else Some(Trim(line[cut + 1..]))
  }

  function Found(o: Option<string>): seq<string> {
    if o.Some? then [o.value] else []
  }

  function Reader(key: string): string -> Option<string> {
    (line: string) => ConfigPropertyValue(line, key)
  }

  function Values(lines: seq<string>, read: string -> Option<string>): seq<string> {
    if lines == [] then [] else Values(lines[..|lines| - 1], read) + Found(read(lines[|lines| - 1]))
  }

  method ConfigPropertyValuesFromText(text: string, key: string) returns (values: seq<string>)
    ensures values == Values(Split(text, '\n'), Reader(key))
  {
    values := [];
    var lines := Split(text, '\n');
    for i := 0 to |lines|
      invariant values == Values(lines[..i], Reader(key))
    {
      var value := ConfigPropertyValue(lines[i], key);
      if value.Some? {
        values := values + [value.value];
      }
      assert lines[..i + 1][..i] == lines[..i];
    }
    assert lines[..|lines|] == lines;
  }

  /* ---- the round trip ---- */

  predicate CleanKey(key: string) {
    key != "" && Trimmed(key) && '=' !in key && '\n' !in key
  }

  /** A written line is read as its own key, with the value trimmed, unless it starts like a comment. */
  lemma LineReadsAsItsKey(j: string, value: string, key: string)
    requires CleanKey(j)
    ensures ConfigPropertyValue(Line(j, value), key) == if j == key && j[0] != '#' then Some(Trim(value)) else None
  {
    var head := j + "=";
    var line := head + TrimRight(value);
    TrimRightKeepsHead(head, value);
    assert Line(j, value) == head + value;
    assert line[0] == j[0];
    assert Trim(Line(j, value)) == line;
    assert line == j + ['='] + TrimRight(value);
    IndexOfFirst(j, '=', TrimRight(value));
    assert line[..|j|] == j && line[|j| + 1..] == TrimRight(value);
    TrimRightTwice(value);
  }

  lemma TrimRightTwice(s: string)
    ensures TrimRight(TrimRight(s)) == TrimRight(s)
  {
  }

  lemma {:induction false} NothingRead(lines: seq<string>, read: string -> Option<string>)
    requires forall i :: 0 <= i < |lines| ==> read(lines[i]) == None
    ensures Values(lines, read) == []
  {
    if lines != [] {
      NothingRead(lines[..|lines| - 1], read);
    }
  }

  lemma {:induction false} OneRead(lines: seq<string>, read: string -> Option<string>, k: nat, value: string)
    requires k < |lines| && read(lines[k]) == Some(value)
    requires forall i :: 0 <= i < |lines| && i != k ==> read(lines[i]) == None
    ensures Values(lines, read) == [value]
  {
    if k == |lines| - 1 {
      NothingRead(lines[..k], read);
    } else {
      OneRead(lines[..|lines| - 1], read, k, value);
    }
  }

  lemma PlainIsClean(key: string)
    requires Plain(key)
    ensures CleanKey(key)
  {
    assert PlainChar(key[0]) && PlainChar(key[|key| - 1]);
    assert !PlainChar('=') && !PlainChar('\n');
  }

  lemma PlainIsNormal(key: string)
    requires Plain(key)
    ensures NormalKey(key) == key
  {
    PlainIsClean(key);
    assert Trim(key) == key;
    assert Lower(key) == key;
    forall i | 0 <= i < |key| ensures DashChar(key[i]) == key[i] {
      assert PlainChar(key[i]);
    }
  }

  lemma HeaderIsPlain()
    ensures Plain(HEADER)
  {
  }

  lemma HeaderIsReserved(c: Connector)
    ensures NormalKey(HEADER) in Reserved(c)
  {
    HeaderIsPlain();
    PlainIsNormal(HEADER);
  }

  /** What the user, the connector and validation together guarantee of the keys that are written. */
  lemma WrittenKeysAreClean(c: Catalog, key: string)
    requires Accepted(c) && key in AllProps(c)
    requires forall k :: k in c.properties ==> CleanKey(k)
    ensures CleanKey(key)
  {
    var name := TrimPrefix(c.name, PREFIX);
    if key in RefNames(c.secretRefs.Keys) {
      var k :| k in c.secretRefs && Trim(k) != "" && Trim(k) == key;
      assert ValidRefName(k);
    } else if key in TypedProps(c.connector, name) {
      GeneratedKeysAreReserved(c.connector, name);
      GeneratedKeysArePlain(c.connector);
      PlainIsClean(key);
    }
  }

  predicate LooksLikeComment(key: string) {
    key != "" && key[0] == '#'
  }

  predicate OneLine(s: string) {
    '\n' !in s
  }

  lemma {:induction false} LinesAt(keys: seq<string>, props: map<string, Value>, i: nat)
    requires forall i :: 0 <= i < |keys| ==> keys[i] in props
    requires i < |keys|
    ensures Lines(keys, props)[i] == Line(keys[i], Show(props[keys[i]]))
  {
    if i < |keys| - 1 {
      LinesAt(keys[..|keys| - 1], props, i);
    }
  }

  lemma WrittenLine(j: string, value: string, key: string)
    requires CleanKey(j) && OneLine(value) && !LooksLikeComment(key)
    ensures OneLine(Line(j, value))
    ensures Reader(key)(Line(j, value)) == if j == key then Some(Trim(value)) else None
  {
    LineReadsAsItsKey(j, value, key);
  }

  predicate AllOneLine(lines: seq<string>) {
    forall i :: 0 <= i < |lines| ==> OneLine(lines[i])
  }

  /** Only line `k` is read, and it gives `value`. */
  predicate OnlyReads(lines: seq<string>, read: string -> Option<string>, k: nat, value: string) {
    k < |lines| && forall i :: 0 <= i < |lines| ==> read(lines[i]) == if i == k then Some(value) else None
  }

  lemma KeyLine(keys: seq<string>, props: map<string, Value>, key: string, k: nat, i: nat)
    requires forall i :: 0 <= i < |keys| ==> keys[i] in props && CleanKey(keys[i]) && OneLine(Show(props[keys[i]]))
    requires !LooksLikeComment(key) && Ascending(keys) && k < |keys| && keys[k] == key && i < |keys|
    ensures OneLine(Lines(keys, props)[i])
    ensures Reader(key)(Lines(keys, props)[i]) == if i == k then Some(Trim(Show(props[key]))) else None
  {
    LinesAt(keys, props, i);
    WrittenLine(keys[i], Show(props[keys[i]]), key);
    if i != k { AscendingIsDistinct(keys, i, k); }
  }

  lemma KeyLinesRead(keys: seq<string>, props: map<string, Value>, key: string, k: nat)
    requires forall i :: 0 <= i < |keys| ==> keys[i] in props && CleanKey(keys[i]) && OneLine(Show(props[keys[i]]))
    requires !LooksLikeComment(key) && Ascending(keys) && k < |keys| && keys[k] == key
    ensures AllOneLine(Lines(keys, props)) && OnlyReads(Lines(keys, props), Reader(key), k, Trim(Show(props[key])))
  {
    var lines, read, value := Lines(keys, props), Reader(key), Trim(Show(props[key]));
    forall i | 0 <= i < |lines| ensures OneLine(lines[i]) && read(lines[i]) == if i == k then Some(value) else None {
      KeyLine(keys, props, key, k, i);
    }
  }

  lemma PrependLine(line: string, lines: seq<string>, read: string -> Option<string>, k: nat, value: string)
    requires OneLine(line) && read(line) == None && AllOneLine(lines) && OnlyReads(lines, read, k, value)
    ensures AllOneLine([line] + lines) && OnlyReads([line] + lines, read, k + 1, value)
  {
  }

  lemma NothingReadFromEmpty(key: string)
    ensures Reader(key)("") == None
  {
  }

  /** Any written key reads back as exactly one value. */
  lemma WrittenKeyReadsBack(connectorName: string, props: map<string, Value>, key: string)
    requires key in props && key != HEADER && key != "" && key[0] != '#'
    requires OneLine(connectorName)
    requires forall k :: k in props ==> CleanKey(k) && OneLine(Show(props[k]))
    ensures Values(Split(Render(connectorName, props), '\n'), Reader(key)) == [Trim(Show(props[key]))]
  {
    SortedKeysArePresent(props);
    var keys := Sorted(props.Keys);
    assert key in Elements(keys);
    var k :| 0 <= k < |keys| && keys[k] == key;
    HeaderIsPlain();
    PlainIsClean(HEADER);
    WrittenLine(HEADER, connectorName, key);
    KeyLinesRead(keys, props, key, k);
    PrependLine(Line(HEADER, connectorName), Lines(keys, props), Reader(key), k, Trim(Show(props[key])));
    NothingReadFromEmpty(key);
    ReadBack(AllLines(connectorName, props), Reader(key), k + 1, Trim(Show(props[key])));
  }

  lemma ReadBack(lines: seq<string>, read: string -> Option<string>, k: nat, value: string)
    requires AllOneLine(lines) && OnlyReads(lines, read, k, value) && read("") == None
    ensures Values(Split(Ended(lines, '\n'), '\n'), read) == [value]
  {
    SplitEnded(lines, '\n');
    OneReadBeforeEnd(lines, read, k, value);
  }

  lemma AscendingIsDistinct(keys: seq<string>, i: nat, k: nat)
    requires Ascending(keys) && i < |keys| && k < |keys| && i != k
    ensures keys[i] != keys[k]
  {
    BelowIsTotal(keys[i], keys[k]);
  }

  lemma OneReadBeforeEnd(lines: seq<string>, read: string -> Option<string>, k: nat, value: string)
    requires k < |lines| && read(lines[k]) == Some(value) && read("") == None
    requires forall i :: 0 <= i < |lines| && i != k ==> read(lines[i]) == None
    ensures Values(lines + [""], read) == [value]
  {
    var all := lines + [""];
    forall i | 0 <= i < |all| && i != k ensures read(all[i]) == None {
      assert i < |lines| ==> all[i] == lines[i];
    }
    OneRead(all, read, k, value);
  }

  /** The text a catalog is rendered to has one line for every property. */
  ghost predicate Printable(connectorName: string, props: map<string, Value>) {
    && OneLine(connectorName)
    && (forall k :: k in props ==> OneLine(Show(props[k])))
  }

  lemma UserKeyIsNotHeader(c: Catalog, key: string)
    requires Accepted(c) && key in c.properties
    ensures key != HEADER
  {
    HeaderIsReserved(c.connector);
  }

  ghost function ReadFrom(connectorName: string, props: map<string, Value>, key: string): seq<string> {
    Values(Split(Render(connectorName, props), '\n'), Reader(key))
  }

  lemma AllWrittenKeysAreClean(c: Catalog, props: map<string, Value>)
    requires Accepted(c) && props == AllProps(c)
    requires forall k :: k in c.properties ==> CleanKey(k)
    ensures forall k :: k in props ==> CleanKey(k)
  {
    forall k | k in props ensures CleanKey(k) {
      WrittenKeysAreClean(c, k);
    }
  }

  /**
   A user property that no Secret reference shadows is read back, once, with its own value; the surrounding
   white space, if any, is all that is lost. This holds whatever the connector is called.
   */
  lemma UserPropertyReadsBack(c: Catalog, connectorName: string, props: map<string, Value>, key: string)
    requires Accepted(c) && props == AllProps(c)
    requires key in c.properties && key !in RefNames(c.secretRefs.Keys)
    requires forall k :: k in c.properties ==> CleanKey(k)
    requires !LooksLikeComment(key)
    requires Printable(connectorName, props)
    ensures ReadFrom(connectorName, props, key) == [Trim(c.properties[key])]
    ensures ReadFrom(connectorName, props, key) == [c.properties[key]] <==> Trimmed(c.properties[key])
  {
    assert CleanKey(key);
    AllWrittenKeysAreClean(c, props);
    UserPropertyIsKept(c, key);
    UserKeyIsNotHeader(c, key);
    TextReadsBack(connectorName, props, key, c.properties[key]);
  }

  lemma TextReadsBack(connectorName: string, props: map<string, Value>, key: string, value: string)
    requires key in props && props[key] == Text(value) && key != HEADER && key != "" && key[0] != '#'
    requires Printable(connectorName, props) && forall k :: k in props ==> CleanKey(k)
    ensures ReadFrom(connectorName, props, key) == [Trim(value)]
    ensures ReadFrom(connectorName, props, key) == [value] <==> Trimmed(value)
  {
    WrittenKeyReadsBack(connectorName, props, key);
    assert Show(props[key]) == value;
    assert [Trim(value)] == [value] <==> Trim(value) == value by { assert [Trim(value)][0] == Trim(value); }
  }

  /** Neither the connector nor a Secret reference of another name overwrites a user property. */
  lemma UserPropertyIsKept(c: Catalog, key: string)
    requires Accepted(c) && key in c.properties && key !in RefNames(c.secretRefs.Keys)
    ensures key in AllProps(c) && AllProps(c)[key] == Text(c.properties[key])
  {
    var name := TrimPrefix(c.name, PREFIX);
    GeneratedKeysAreReserved(c.connector, name);
  }
}
