/** Secrets of catalogs: the placeholders in the file against the variables given to the pods. */
module CatalogSecrets {

  import opened Options
  import opened Sorting
  import opened Strings
  import opened Catalog
  import opened CatalogText

  datatype SecretRef = SecretRef(property: string, secret: SecretKey, variable: string)

  /* ---- extraction ---- */

  function When(secret: Option<SecretKey>, property: string): seq<(string, SecretKey)> {
    if secret.Some? then [(property, secret.value)] else []
  }

  /** The Secrets named by the connector's own fields. */
  function TypedSecrets(c: Connector): seq<(string, SecretKey)> {
    match c
    case JdbcConnector(_, _, _, password) => When(password, "connection-password")
    case Snowflake(_, _, _, _, _, _, password) => When(password, "connection-password")
    case Hive(_, _, access, secret) => When(access, "s3.aws-access-key") + When(secret, "s3.aws-secret-key")
    case _ => []
  }

  function NonBlank(refs: set<string>): set<string> {
    set key | key in refs && Trim(key) != ""
  }

  function GenericSecrets(names: seq<string>, refs: map<string, SecretKey>): (r: seq<(string, SecretKey)>)
    requires forall i :: 0 <= i < |names| ==> names[i] in refs
    ensures |r| == |names| && forall i :: 0 <= i < |r| ==> r[i] == (Trim(names[i]), refs[names[i]])
  {
    seq(|names|, i requires 0 <= i < |names| => (Trim(names[i]), refs[names[i]]))
  }

  ghost function SortedNames(refs: map<string, SecretKey>): (names: seq<string>)
    ensures Ascending(names) && Elements(names) == NonBlank(refs.Keys)
    ensures forall i :: 0 <= i < |names| ==> names[i] in refs
  {
    var names := Sorted(NonBlank(refs.Keys));
    assert forall i :: 0 <= i < |names| ==> names[i] in refs by {
      forall i | 0 <= i < |names| ensures names[i] in refs {
        assert names[i] in Elements(names);
      }
    }
    names
  }

  /** Generic references in name order, then those of the connector's own fields. */
  ghost function Secrets(c: Catalog): seq<(string, SecretKey)> {
    GenericSecrets(SortedNames(c.secretRefs), c.secretRefs) + TypedSecrets(c.connector)
  }

  function Refs(secrets: seq<(string, SecretKey)>, variable: string -> string): (r: seq<SecretRef>)
    ensures |r| == |secrets|
    ensures forall i :: 0 <= i < |r| ==> r[i] == SecretRef(secrets[i].0, secrets[i].1, variable(secrets[i].0))
  {
    seq(|secrets|, i requires 0 <= i < |secrets| => SecretRef(secrets[i].0, secrets[i].1, variable(secrets[i].0)))
  }

  ghost function Extracted(c: Catalog): seq<SecretRef> {
    Refs(Secrets(c), VariableOf(c.name))
  }

  method GenericPropertySecretReferences(secretRefs: map<string, SecretKey>, variable: string -> string)
    returns (refs: seq<SecretRef>)
    ensures refs == Refs(GenericSecrets(SortedNames(secretRefs), secretRefs), variable)
  {
    var nonBlank := map key | key in NonBlank(secretRefs.Keys) :: secretRefs[key];
    assert nonBlank.Keys == NonBlank(secretRefs.Keys);
    var names := CollectKeys(nonBlank);
    names := SortStrings(names);
    AscendingIsUnique(names, SortedNames(secretRefs));
    refs := ReferencesOf(names, secretRefs, variable);
  }

  method ReferencesOf(names: seq<string>, secretRefs: map<string, SecretKey>, variable: string -> string)
    returns (refs: seq<SecretRef>)
    requires forall i :: 0 <= i < |names| ==> names[i] in secretRefs
    ensures refs == Refs(GenericSecrets(names, secretRefs), variable)
  {
    refs := [];
    for i := 0 to |names|
      invariant |refs| == i
      invariant forall j :: 0 <= j < i ==> refs[j] == SecretRef(Trim(names[j]), secretRefs[names[j]], variable(Trim(names[j])))
    {
      var property := Trim(names[i]);
      refs := refs + [SecretRef(property, secretRefs[names[i]], variable(property))];
    }
    assert refs == Refs(GenericSecrets(names, secretRefs), variable);
  }

  method AddSecret(refs: seq<SecretRef>, secret: Option<SecretKey>, property: string, variable: string -> string)
    returns (more: seq<SecretRef>)
    ensures more == refs + Refs(When(secret, property), variable)
  {
    more := refs;
    if secret.Some? {
      more := more + [SecretRef(property, secret.value, variable(property))];
    }
    assert more == refs + Refs(When(secret, property), variable);
  }

  method ExtractSecretReferences(c: Catalog) returns (refs: seq<SecretRef>)
    ensures refs == Extracted(c)
  {
    var variable := VariableOf(c.name);
    var generic := GenericPropertySecretReferences(c.secretRefs, variable);
    refs := TypedSecretReferences(c.connector, variable);
    refs := generic + refs;
    RefsConcat(GenericSecrets(SortedNames(c.secretRefs), c.secretRefs), TypedSecrets(c.connector), variable);
  }

  method TypedSecretReferences(c: Connector, variable: string -> string) returns (refs: seq<SecretRef>)
    ensures refs == Refs(TypedSecrets(c), variable)
  {
    refs := [];
    if c.Hive? {
      refs := AddSecret(refs, c.s3AccessKey, "s3.aws-access-key", variable);
      refs := AddSecret(refs, c.s3SecretKey, "s3.aws-secret-key", variable);
      RefsConcat(When(c.s3AccessKey, "s3.aws-access-key"), When(c.s3SecretKey, "s3.aws-secret-key"), variable);
    }
    if c.JdbcConnector? {
      refs := AddSecret(refs, c.password, "connection-password", variable);
    }
    if c.Snowflake? {
      refs := AddSecret(refs, c.snowPassword, "connection-password", variable);
    }
  }

  lemma RefsConcat(a: seq<(string, SecretKey)>, b: seq<(string, SecretKey)>, variable: string -> string)
    ensures Refs(a + b, variable) == Refs(a, variable) + Refs(b, variable)
  {
  }

  /* ---- names ---- */

  function Names(secrets: seq<(string, SecretKey)>): set<string> {
    set i | 0 <= i < |secrets| :: secrets[i].0
  }

  /** The properties of a catalog that are backed by Secrets. */
  ghost function SecretProperties(c: Catalog): set<string> {
    RefNames(c.secretRefs.Keys) + Names(TypedSecrets(c.connector))
  }

  function Image(names: set<string>, f: string -> string): set<string> {
    set name | name in names :: f(name)
  }

  function PlaceholderVariables(props: map<string, Value>): set<string> {
    set key | key in props && props[key].Env? :: props[key].variable
  }

  function ExtractedVariables(refs: seq<SecretRef>): set<string> {
    set i | 0 <= i < |refs| :: refs[i].variable
  }

  lemma SecretNames(c: Catalog)
    ensures Names(Secrets(c)) == SecretProperties(c)
  {
    var names := SortedNames(c.secretRefs);
    var generic, typed := GenericSecrets(names, c.secretRefs), TypedSecrets(c.connector);
    GenericNames(names, c.secretRefs);
    NamesConcat(generic, typed);
  }

  lemma GenericNames(names: seq<string>, refs: map<string, SecretKey>)
    requires Elements(names) == NonBlank(refs.Keys) && forall i :: 0 <= i < |names| ==> names[i] in refs
    ensures Names(GenericSecrets(names, refs)) == RefNames(refs.Keys)
  {
    var secrets := GenericSecrets(names, refs);
    forall name ensures name in Names(secrets) <==> name in RefNames(refs.Keys) {
      if name in Names(secrets) {
        var i :| 0 <= i < |secrets| && secrets[i].0 == name;
        assert names[i] in Elements(names);
      }
      if name in RefNames(refs.Keys) {
        var key :| key in refs.Keys && Trim(key) != "" && Trim(key) == name;
        assert key in Elements(names);
        var i :| 0 <= i < |names| && names[i] == key;
        assert secrets[i].0 == name;
      }
    }
  }

  lemma NamesConcat(a: seq<(string, SecretKey)>, b: seq<(string, SecretKey)>)
    ensures Names(a + b) == Names(a) + Names(b)
  {
    var s := a + b;
    forall name ensures name in Names(s) <==> name in Names(a) || name in Names(b) {
      if name in Names(a) {
        var i :| 0 <= i < |a| && a[i].0 == name;
        assert s[i].0 == name;
      }
      if name in Names(b) {
        var i :| 0 <= i < |b| && b[i].0 == name;
        assert s[|a| + i].0 == name;
      }
    }
  }

  lemma ExtractedImage(secrets: seq<(string, SecretKey)>, variable: string -> string)
    ensures ExtractedVariables(Refs(secrets, variable)) == Image(Names(secrets), variable)
  {
    var refs := Refs(secrets, variable);
    forall v ensures v in ExtractedVariables(refs) <==> v in Image(Names(secrets), variable) {
      if v in ExtractedVariables(refs) {
        var i :| 0 <= i < |refs| && refs[i].variable == v;
        assert secrets[i].0 in Names(secrets);
      }
      if v in Image(Names(secrets), variable) {
        var name :| name in Names(secrets) && variable(name) == v;
        var i :| 0 <= i < |secrets| && secrets[i].0 == name;
        assert refs[i].variable == v;
      }
    }
  }

  /** `props` has placeholders for exactly the named properties, each for its own variable. */
  predicate PlaceholdersExactly(props: map<string, Value>, names: set<string>, variable: string -> string) {
    && names <= props.Keys
    && forall key :: key in props ==> if key in names then props[key] == Env(variable(key)) else props[key].Text?
  }

  lemma AddPlaceholder(props: map<string, Value>, names: set<string>, given: bool, key: string, variable: string -> string)
    requires PlaceholdersExactly(props, names, variable)
    ensures PlaceholdersExactly(props + Entry(given, key, Env(variable(key))), names + Kept(given, key), variable)
  {
  }

  lemma NamesWhen(secret: Option<SecretKey>, property: string)
    ensures Names(When(secret, property)) == Kept(secret.Some?, property)
  {
    if secret.Some? { assert When(secret, property)[0].0 == property; }
  }

  lemma OtherConnectorsAreText(c: Connector, catalogName: string)
    requires !c.JdbcConnector? && !c.Snowflake? && !c.Hive?
    ensures AllText(TypedProps(c, catalogName))
  {
    if c.BigQuery? || c.Elasticsearch? || c.OpenSearch? || c.Faker? || c.Lakehouse? || c.DeltaLake? {
      SeveralTexts(c, catalogName);
    }
  }

  lemma SeveralTexts(c: Connector, catalogName: string)
    requires c.BigQuery? || c.Elasticsearch? || c.OpenSearch? || c.Faker? || c.Lakehouse? || c.DeltaLake?
    ensures AllText(TypedProps(c, catalogName))
  {
  }

  lemma TextsHaveNoPlaceholders(props: map<string, Value>, variable: string -> string)
    requires AllText(props)
    ensures PlaceholdersExactly(props, {}, variable)
  {
  }

  /** Text properties and, if its Secret is given, one placeholder over them. */
  lemma OnePlaceholder(texts: map<string, Value>, secret: Option<SecretKey>, key: string, variable: string -> string)
    requires AllText(texts)
    ensures PlaceholdersExactly(texts + Entry(secret.Some?, key, Env(variable(key))), Names(When(secret, key)), variable)
  {
    TextsHaveNoPlaceholders(texts, variable);
    AddPlaceholder(texts, {}, secret.Some?, key, variable);
    NamesWhen(secret, key);
    assert {} + Kept(secret.Some?, key) == Kept(secret.Some?, key);
  }

  lemma TwoPlaceholders(texts: map<string, Value>, a: Option<SecretKey>, k: string, b: Option<SecretKey>, l: string,
                        variable: string -> string)
    requires AllText(texts)
    ensures PlaceholdersExactly(texts + Entry(a.Some?, k, Env(variable(k))) + Entry(b.Some?, l, Env(variable(l))),
                                Names(When(a, k) + When(b, l)), variable)
  {
    OnePlaceholder(texts, a, k, variable);
    AddPlaceholder(texts + Entry(a.Some?, k, Env(variable(k))), Names(When(a, k)), b.Some?, l, variable);
    NamesWhen(b, l);
    NamesConcat(When(a, k), When(b, l));
  }

  lemma SnowflakePlaceholders(c: Connector, catalogName: string)
    requires c.Snowflake?
    ensures PlaceholdersExactly(TypedProps(c, catalogName), Names(TypedSecrets(c)), VariableOf(catalogName))
  {
    var texts := Always("connection-url", c.snowUrl) + Always("connection-user", c.snowUser)
      + Filled("snowflake.account", c.account) + Filled("snowflake.database", c.snowDatabase)
      + Filled("snowflake.role", c.role) + Filled("snowflake.warehouse", c.warehouse);
    OnePlaceholder(texts, c.snowPassword, "connection-password", VariableOf(catalogName));
  }

  lemma HivePlaceholders(c: Connector, catalogName: string)
    requires c.Hive?
    ensures PlaceholdersExactly(TypedProps(c, catalogName), Names(TypedSecrets(c)), VariableOf(catalogName))
  {
    var texts := Always("hive.metastore.uri", c.hiveUri)
      + Entry(c.s3Endpoint != "" || c.s3AccessKey.Some? || c.s3SecretKey.Some?, "fs.native-s3.enabled", Text("true"))
      + Filled("s3.endpoint", c.s3Endpoint);
    TwoPlaceholders(texts, c.s3AccessKey, "s3.aws-access-key", c.s3SecretKey, "s3.aws-secret-key", VariableOf(catalogName));
  }

  lemma JdbcPlaceholders(c: Connector, catalogName: string)
    requires c.JdbcConnector?
    ensures PlaceholdersExactly(TypedProps(c, catalogName), Names(TypedSecrets(c)), VariableOf(catalogName))
  {
    var texts := Always("connection-url", c.url) + Filled("connection-user", c.user);
    OnePlaceholder(texts, c.password, "connection-password", VariableOf(catalogName));
  }

  /** The connector's own fields give a placeholder for exactly the properties whose Secret is extracted. */
  lemma TypedPlaceholders(c: Connector, catalogName: string)
    ensures PlaceholdersExactly(TypedProps(c, catalogName), Names(TypedSecrets(c)), VariableOf(catalogName))
  {
    if c.JdbcConnector? {
      JdbcPlaceholders(c, catalogName);
    } else if c.Snowflake? {
      SnowflakePlaceholders(c, catalogName);
    } else if c.Hive? {
      HivePlaceholders(c, catalogName);
    } else {
      OtherConnectorsAreText(c, catalogName);
      TextsHaveNoPlaceholders(TypedProps(c, catalogName), VariableOf(catalogName));
    }
  }

  lemma OverTexts(texts: map<string, Value>, props: map<string, Value>, names: set<string>, variable: string -> string)
    requires AllText(texts) && PlaceholdersExactly(props, names, variable)
    ensures PlaceholdersExactly(texts + props, names, variable)
  {
  }

  lemma UnderReferences(props: map<string, Value>, names: set<string>, refs: set<string>, variable: string -> string)
    requires PlaceholdersExactly(props, names, variable)
    ensures PlaceholdersExactly(props + Placeholders(refs, variable), refs + names, variable)
  {
  }

  /** The rendered properties hold a placeholder for exactly the Secret-backed ones. */
  lemma CatalogPlaceholders(c: Catalog)
    ensures PlaceholdersExactly(AllProps(c), SecretProperties(c), VariableOf(TrimPrefix(c.name, PREFIX)))
  {
    var name := TrimPrefix(c.name, PREFIX);
    var typed := TypedProps(c.connector, name);
    TypedPlaceholders(c.connector, name);
    OverTexts(Texts(c.properties), typed, Names(TypedSecrets(c.connector)), VariableOf(name));
    UnderReferences(Texts(c.properties) + typed, Names(TypedSecrets(c.connector)), RefNames(c.secretRefs.Keys), VariableOf(name));
  }

  lemma PlaceholderImage(props: map<string, Value>, names: set<string>, variable: string -> string)
    requires PlaceholdersExactly(props, names, variable)
    ensures PlaceholderVariables(props) == Image(names, variable)
  {
    forall v ensures v in PlaceholderVariables(props) <==> v in Image(names, variable) {
      if v in Image(names, variable) {
        var name :| name in names && variable(name) == v;
        assert name in props && props[name].variable == v;
      }
    }
  }

  /* ---- agreement ---- */

  predicate PrefixTwice(name: string) {
    PREFIX <= name && PREFIX <= name[|PREFIX|..]
  }

  /** The controller strips the prefix from a name already stripped; this shows only in names that carry it twice. */
  lemma StrippedTwice(name: string, property: string)
    ensures !PrefixTwice(name) ==> VariableOf(TrimPrefix(name, PREFIX))(property) == VariableOf(name)(property)
    ensures PrefixTwice(name) ==> |VariableOf(TrimPrefix(name, PREFIX))(property)| < |VariableOf(name)(property)|
    ensures |VariableOf(name)(property)| == |TrimPrefix(name, PREFIX)| + |property| + 9
  {
    assert |PREFIX| > 0;
  }

  /**
   The variables in the file are the variables the pods are given exactly when the catalog has no Secrets, or
   its name does not carry the catalog prefix twice.
   */
  lemma VariablesAgreeIff(c: Catalog)
    ensures PlaceholderVariables(AllProps(c)) == ExtractedVariables(Extracted(c))
       <==> SecretProperties(c) == {} || !PrefixTwice(c.name)
  {
    var names, inFile, inPods := SecretProperties(c), VariableOf(TrimPrefix(c.name, PREFIX)), VariableOf(c.name);
    CatalogPlaceholders(c);
    PlaceholderImage(AllProps(c), names, inFile);
    SecretNames(c);
    ExtractedImage(Secrets(c), inPods);
    forall p ensures (!PrefixTwice(c.name) ==> inFile(p) == inPods(p)) && (PrefixTwice(c.name) ==> |inFile(p)| < |inPods(p)|)
                     && |inPods(p)| == |TrimPrefix(c.name, PREFIX)| + |p| + 9 {
      StrippedTwice(c.name, p);
    }
    ImagesAgreeIff(names, inFile, inPods, PrefixTwice(c.name), |TrimPrefix(c.name, PREFIX)| + 9);
  }

  lemma ImagesAgreeIff(names: set<string>, f: string -> string, g: string -> string, shorter: bool, base: nat)
    requires forall p :: !shorter ==> f(p) == g(p)
    requires forall p :: shorter ==> |f(p)| < |g(p)|
    requires forall p :: |g(p)| == base + |p|
    ensures Image(names, f) == Image(names, g) <==> names == {} || !shorter
  {
    if names == {} || !shorter {
      assert Image(names, f) == Image(names, g);
    } else {
      var p := Shortest(names);
      assert f(p) in Image(names, f);
      assert f(p) !in Image(names, g);
    }
  }

  lemma Shortest(names: set<string>) returns (p: string)
    requires names != {}
    ensures p in names && forall q :: q in names ==> |p| <= |q|
  {
    p :| p in names;
    var rest := names - {p};
    assert forall q :: q in names ==> q == p || q in rest;
    if rest != {} {
      var q := Shortest(rest);
      if |q| < |p| {
        p := q;
      }
    }
  }

  /* ---- each variable holds its own Secret ---- */

  /** Within one catalog, two properties share a variable exactly when they agree after case and punctuation are dropped. */
  lemma SharedVariable(name: string, p: string, q: string)
    ensures VariableOf(name)(p) == VariableOf(name)(q) <==> EnvPart(p) == EnvPart(q)
  {
    var head := "CATALOG_" + EnvPart(TrimPrefix(name, PREFIX)) + "_";
    var v, w := head + EnvPart(p), head + EnvPart(q);
    assert v[|head|..] == EnvPart(p) && w[|head|..] == EnvPart(q);
  }

  /** A dot and a dash in the same place always collide. */
  lemma DotAndDashCollide(name: string, a: string, b: string)
    ensures VariableOf(name)(a + "." + b) == VariableOf(name)(a + "-" + b)
  {
    var p, q := a + "." + b, a + "-" + b;
    assert EnvPart(p) == EnvPart(q);
  }

  predicate NoCollisions(secrets: seq<(string, SecretKey)>) {
    forall i, j :: 0 <= i < j < |secrets| ==> EnvPart(secrets[i].0) != EnvPart(secrets[j].0)
  }

  /** Every placeholder names a variable that the pods get once, from the Secret of that same property. */
  lemma PlaceholderGetsItsOwnSecret(c: Catalog, key: string) returns (i: nat)
    requires !PrefixTwice(c.name) && NoCollisions(Secrets(c))
    requires key in AllProps(c) && AllProps(c)[key].Env?
    ensures i < |Extracted(c)| == |Secrets(c)|
    ensures Extracted(c)[i].variable == AllProps(c)[key].variable
    ensures Secrets(c)[i] == (key, Extracted(c)[i].secret)
    ensures forall j :: 0 <= j < |Extracted(c)| && Extracted(c)[j].variable == AllProps(c)[key].variable ==> j == i
  {
    var secrets, refs := Secrets(c), Extracted(c);
    CatalogPlaceholders(c);
    StrippedTwice(c.name, key);
    SecretNames(c);
    assert key in Names(secrets);
    i :| 0 <= i < |secrets| && secrets[i].0 == key;
    forall j | 0 <= j < |refs| && refs[j].variable == refs[i].variable ensures j == i {
      SharedVariable(c.name, secrets[j].0, secrets[i].0);
    }
  }
}
