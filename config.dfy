/**
 * The plugin's settings record (`MonorangerConfig`) and its construction from
 * the `[tool.poetry-monoranger-plugin]` table. The record is a dataclass: it
 * does not check the types of the values it is given, so its fields hold
 * TOML values as they were read.
 */
module Config {
  import opened Values

  datatype MonorangerConfig = MonorangerConfig(
    enabled: Value,
    monorepoRoot: Value,
    versionRewriteRule: Value)

  /** The dataclass defaults. */
  const Defaults := MonorangerConfig(Bool(false), Str("../"), Str("^"))

  /** The keyword arguments the dataclass constructor accepts. */
  predicate IsField(k: string)
  {
    k == "enabled" || k == "monorepo_root" || k == "version_rewrite_rule"
  }

  /** `k.replace("-", "_")` */
  function Underscored(k: string): (r: string)
    ensures |r| == |k|
    ensures forall i :: 0 <= i < |k| ==> r[i] == (if k[i] == '-' then '_' else k[i])
    ensures '-' !in r
  {
    if k == [] then []
    else [if k[0] == '-' then '_' else k[0]] + Underscored(k[1..])
  }

  /**
   * `{k.replace("-", "_"): v for k, v in d.items()}`: entries are visited in
   * order, so of two keys that differ only in '-' and '_' the later value wins,
   * stored at the position of the earlier key.
   */
  function NormalizeKeys(d: seq<Entry>): seq<Entry>
  {
    if d == [] then []
    else
      var last := d[|d| - 1];
      Put(NormalizeKeys(d[..|d| - 1]), Underscored(last.key), last.val)
  }

  /** The value of the last entry of `d` whose key normalises to `k`. */
  function LastWith(d: seq<Entry>, k: string): Option<Value>
  {
    if d == [] then None
    else if Underscored(d[|d| - 1].key) == k then Some(d[|d| - 1].val)
    else LastWith(d[..|d| - 1], k)
  }

  /** The normalised table holds, for each normalised key, the last value given for it. */
  lemma {:induction false} NormalizeKeysLookup(d: seq<Entry>, k: string)
    ensures Lookup(NormalizeKeys(d), k) == LastWith(d, k)
  {
    if d != [] {
      var last := d[|d| - 1];
      NormalizeKeysLookup(d[..|d| - 1], k);
      PutLookup(NormalizeKeys(d[..|d| - 1]), Underscored(last.key), last.val, k);
    }
  }

  /** The first key of a table that the constructor does not accept, if any. */
  function FirstUnknown(es: seq<Entry>): (r: Option<string>)
    ensures r.None? <==> forall i :: 0 <= i < |es| ==> IsField(es[i].key)
    ensures r.Some? ==> !IsField(r.value) && exists i :: 0 <= i < |es| && es[i].key == r.value
  {
    if es == [] then None
    else if !IsField(es[0].key) then Some(es[0].key)
    else
      var r := FirstUnknown(es[1..]);
      assert forall i :: 1 <= i < |es| ==> es[i] == es[1..][i - 1];
      r
  }

  /** `cls(**d)` raises `TypeError` for an unexpected keyword argument. */
  datatype ConfigError = UnexpectedKeyword(key: string)

  function ValueOr(es: seq<Entry>, k: string, default: Value): Value
  {
    match Lookup(es, k)
    case Some(v) => v
    case None => default
  }

  /** `MonorangerConfig.from_dict(d)` */
  function FromDict(d: seq<Entry>): (r: Result<MonorangerConfig, ConfigError>)
    ensures r.Err? ==> !IsField(r.error.key)
  {
    var n := NormalizeKeys(d);
    match FirstUnknown(n)
    case Some(k) => Err(UnexpectedKeyword(k))
    case None =>
      Ok(MonorangerConfig(
        ValueOr(n, "enabled", Defaults.enabled),
        ValueOr(n, "monorepo_root", Defaults.monorepoRoot),
        ValueOr(n, "version_rewrite_rule", Defaults.versionRewriteRule)))
  }

  /** Every key of the normalised table comes from a key of the input, and back. */
  lemma {:induction false} NormalizeKeysHasKey(d: seq<Entry>, k: string)
    ensures HasKey(NormalizeKeys(d), k) <==> exists i :: 0 <= i < |d| && Underscored(d[i].key) == k
  {
    NormalizeKeysLookup(d, k);
    LastWithSome(d, k);
  }

  lemma {:induction false} LastWithSome(d: seq<Entry>, k: string)
    ensures LastWith(d, k).Some? <==> exists i :: 0 <= i < |d| && Underscored(d[i].key) == k
  {
    if d != [] {
      var p := d[..|d| - 1];
      LastWithSome(p, k);
      assert forall i :: 0 <= i < |p| ==> p[i] == d[i];
    }
  }

  lemma {:induction false} HasKeyAt(es: seq<Entry>, k: string)
    ensures HasKey(es, k) <==> exists i :: 0 <= i < |es| && es[i].key == k
  {
    if es != [] {
      HasKeyAt(es[1..], k);
      assert forall i :: 1 <= i < |es| ==> es[i] == es[1..][i - 1];
    }
  }

  /**
   * Construction succeeds exactly when every key, with '-' replaced by '_',
   * names one of the three fields.
   */
  lemma FromDictSucceedsIff(d: seq<Entry>)
    ensures FromDict(d).Ok? <==> forall i :: 0 <= i < |d| ==> IsField(Underscored(d[i].key))
  {
    var n := NormalizeKeys(d);
    if FromDict(d).Ok? {
      forall i | 0 <= i < |d| ensures IsField(Underscored(d[i].key)) {
        NormalizeKeysHasKey(d, Underscored(d[i].key));
        HasKeyAt(n, Underscored(d[i].key));
      }
    } else {
      var k := FirstUnknown(n).value;
      HasKeyAt(n, k);
      NormalizeKeysHasKey(d, k);
    }
  }

  /**
   * A successful construction takes each field from the last input entry that
   * names it (after '-' becomes '_'), unchanged, and keeps the default for a
   * field no entry names. The values are not checked: any rule is accepted.
   */
  lemma FromDictFields(d: seq<Entry>)
    requires FromDict(d).Ok?
    ensures FromDict(d).value.enabled ==
      (match LastWith(d, "enabled") case Some(v) => v case None => Bool(false))
    ensures FromDict(d).value.monorepoRoot ==
      (match LastWith(d, "monorepo_root") case Some(v) => v case None => Str("../"))
    ensures FromDict(d).value.versionRewriteRule ==
      (match LastWith(d, "version_rewrite_rule") case Some(v) => v case None => Str("^"))
  {
    NormalizeKeysLookup(d, "enabled");
    NormalizeKeysLookup(d, "monorepo_root");
    NormalizeKeysLookup(d, "version_rewrite_rule");
  }

  /** A key without '-' is its own normal form. */
  lemma UnderscoredNoDash(k: string)
    requires '-' !in k
    ensures Underscored(k) == k
  {
    var r := Underscored(k);
    assert forall i :: 0 <= i < |k| ==> r[i] == k[i];
  }
}
