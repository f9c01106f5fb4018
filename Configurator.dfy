/**
 * The file-format registry of the configurator (`FileFormats` in `Others.kt`): an
 * insertion-ordered map from lists of file extensions to loaders, filled with five
 * defaults, searched case-insensitively for the first list holding an extension, and
 * extended or overwritten by `addFormat`.
 */
module Configurator {
  import opened Wrappers
  import opened Text

  /** The five built-in loaders, and a loader supplied through `addFormat`, identified by an id. */
  datatype Loader = JsonLoader | YamlLoader | HoconLoader | PropertiesLoader | TomlLoader | CustomLoader(id: nat)

  /** One entry of the map: its key, a list of extensions, and the loader stored under it. */
  datatype Entry = Entry(keys: seq<string>, loader: Loader)

  /** The `defaults` map, in declaration order; "conf" and "hocon" share one entry. */
  const Defaults: seq<Entry> := [
    Entry(["json"], JsonLoader),
    Entry(["yaml"], YamlLoader),
    Entry(["conf", "hocon"], HoconLoader),
    Entry(["properties"], PropertiesLoader),
    Entry(["toml"], TomlLoader)]

  /** A map holds each key once. */
  ghost predicate DistinctKeys(es: seq<Entry>) {
    forall i, j :: 0 <= i < j < |es| ==> es[i].keys != es[j].keys
  }

  /** Some entry is stored under `keys`. */
  predicate HasKey(es: seq<Entry>, keys: seq<string>) {
    exists i :: 0 <= i < |es| && es[i].keys == keys
  }

  /** Every extension stored is already lowercase. */
  ghost predicate LowercaseKeys(es: seq<Entry>) {
    forall i, k :: 0 <= i < |es| && k in es[i].keys ==> Lower(k) == k
  }

  /**
   * `extension.map { it.lowercase() }`: a new list, key by key the lowercase form of the
   * given one, so every key in it is already lowercase.
   */
  function LowerAll(keys: seq<string>): (r: seq<string>)
    ensures |r| == |keys| && forall i :: 0 <= i < |keys| ==> r[i] == Lower(keys[i])
    ensures forall k :: k in r ==> Lower(k) == k
  {
    var r := seq(|keys|, i requires 0 <= i < |keys| => Lower(keys[i]));
    assert forall k :: k in r ==> Lower(k) == k by {
      forall k | k in r ensures Lower(k) == k {
        var j :| 0 <= j < |r| && r[j] == k;
        LowerIdempotent(keys[j]);
      }
    }
    r
  }

  /** The loader of the first entry, in map order, whose key holds `ext`. */
  function FirstHolding(es: seq<Entry>, ext: string): (r: Option<Loader>)
    ensures r.None? <==> forall i :: 0 <= i < |es| ==> ext !in es[i].keys
    ensures r.Some? ==> exists i :: 0 <= i < |es| && ext in es[i].keys && r.value == es[i].loader
                                  && forall j :: 0 <= j < i ==> ext !in es[j].keys
  {
    if es == [] then None
    else if ext in es[0].keys then Some(es[0].loader)
    else
      var r := FirstHolding(es[1..], ext);
      assert forall i :: 1 <= i < |es| ==> es[1..][i - 1] == es[i];
      r
  }

  /** `findFormat(extension)`: `formats.entries.firstOrNull { it.key.contains(extension.lowercase()) }?.value`. */
  function Find(es: seq<Entry>, extension: string): Option<Loader> {
    FirstHolding(es, Lower(extension))
  }

  /**
   * `formats[keys] = loader` on an insertion-ordered map: a key already present keeps its
   * position and gets the new loader; a new key goes at the end.
   */
  function Put(es: seq<Entry>, keys: seq<string>, loader: Loader): seq<Entry>
  {
    if es == [] then [Entry(keys, loader)]
    else if es[0].keys == keys then [Entry(keys, loader)] + es[1..]
    else [es[0]] + Put(es[1..], keys, loader)
  }

  // ---------------------------------------------------------------------------
  // The defaults

  /** A string without capital letters is its own lowercase form. */
  lemma LowerOfLowercase(s: string)
    requires forall i :: 0 <= i < |s| ==> !('A' <= s[i] <= 'Z')
    ensures Lower(s) == s
  {
  }

  /** The defaults are a map whose extensions are all lowercase. */
  lemma DefaultsWellFormed()
    ensures DistinctKeys(Defaults) && LowercaseKeys(Defaults)
  {
    LowerOfLowercase("json");
    LowerOfLowercase("yaml");
    LowerOfLowercase("conf");
    LowerOfLowercase("hocon");
    LowerOfLowercase("properties");
    LowerOfLowercase("toml");
  }

  /** The table the defaults resolve: each default extension to its loader. */
  lemma DefaultsResolve()
    ensures FirstHolding(Defaults, "json") == Some(JsonLoader)
    ensures FirstHolding(Defaults, "yaml") == Some(YamlLoader)
    ensures FirstHolding(Defaults, "conf") == Some(HoconLoader)
    ensures FirstHolding(Defaults, "hocon") == Some(HoconLoader)
    ensures FirstHolding(Defaults, "properties") == Some(PropertiesLoader)
    ensures FirstHolding(Defaults, "toml") == Some(TomlLoader)
  {
    assert "json" in Defaults[0].keys;
    assert "yaml" !in Defaults[0].keys && "yaml" in Defaults[1].keys;
    assert "conf" !in Defaults[0].keys && "conf" !in Defaults[1].keys && "conf" in Defaults[2].keys;
    assert "hocon" !in Defaults[0].keys && "hocon" !in Defaults[1].keys && "hocon" in Defaults[2].keys;
    assert forall j :: 0 <= j < 3 ==> "properties" !in Defaults[j].keys;
    assert "properties" in Defaults[3].keys;
    assert forall j :: 0 <= j < 4 ==> "toml" !in Defaults[j].keys;
    assert "toml" in Defaults[4].keys;
  }

  /** Any extension outside the default lists, such as "yml" or "nbt", resolves to nothing. */
  lemma DefaultsMiss(extension: string)
    requires Lower(extension) !in ["json", "yaml", "conf", "hocon", "properties", "toml"]
    ensures Find(Defaults, extension) == None
  {
  }

  lemma YmlAndNbtMiss()
    ensures Find(Defaults, "yml") == None && Find(Defaults, "nbt") == None
  {
    assert Lower("yml") == "yml";
    assert Lower("nbt") == "nbt";
    DefaultsMiss("yml");
    DefaultsMiss("nbt");
  }

  // ---------------------------------------------------------------------------
  // findFormat and addFormat

  /** The lookup ignores case: an extension and its lowercase form find the same loader. */
  lemma FindIgnoresCase(es: seq<Entry>, extension: string)
    ensures Find(es, extension) == Find(es, Lower(extension))
  {
    LowerIdempotent(extension);
  }

  /** A new key is appended, after every entry already there. */
  lemma {:induction false} PutNewKeyAppends(es: seq<Entry>, keys: seq<string>, loader: Loader)
    requires !HasKey(es, keys)
    ensures Put(es, keys, loader) == es + [Entry(keys, loader)]
  {
    if es != [] {
      assert es[0].keys != keys;
      assert !HasKey(es[1..], keys) by {
        forall i | 0 <= i < |es[1..]| ensures es[1..][i].keys != keys {
          assert es[1..][i] == es[i + 1];
        }
      }
      PutNewKeyAppends(es[1..], keys, loader);
      assert es == [es[0]] + es[1..];
    }
  }

  /** A key already present keeps its position; only its loader changes. */
  lemma {:induction false} PutExistingKeyReplaces(es: seq<Entry>, keys: seq<string>, loader: Loader, i: nat)
    requires DistinctKeys(es) && i < |es| && es[i].keys == keys
    ensures Put(es, keys, loader) == es[i := Entry(keys, loader)]
  {
    if i > 0 {
      assert es[0].keys != keys;
      assert DistinctKeys(es[1..]) by {
        forall a, b | 0 <= a < b < |es[1..]| ensures es[1..][a].keys != es[1..][b].keys {
          assert es[1..][a] == es[a + 1] && es[1..][b] == es[b + 1];
        }
      }
      PutExistingKeyReplaces(es[1..], keys, loader, i - 1);
      assert es[i := Entry(keys, loader)] == [es[0]] + es[1..][i - 1 := Entry(keys, loader)];
    } else {
      assert es[0 := Entry(keys, loader)] == [Entry(keys, loader)] + es[1..];
    }
  }

  /** `addFormat` never removes an entry: every key stays, with its loader unless it is the key written. */
  lemma {:induction false} PutKeepsOthers(es: seq<Entry>, keys: seq<string>, loader: Loader)
    ensures |Put(es, keys, loader)| >= |es|
    ensures forall i :: 0 <= i < |es| && es[i].keys != keys ==> Put(es, keys, loader)[i] == es[i]
    ensures forall i :: 0 <= i < |es| ==> Put(es, keys, loader)[i].keys == es[i].keys
    ensures HasKey(Put(es, keys, loader), keys)
  {
    if es != [] {
      PutKeepsOthers(es[1..], keys, loader);
      var r := Put(es, keys, loader);
      if es[0].keys == keys {
        assert r[0].keys == keys;
      } else {
        var rest := Put(es[1..], keys, loader);
        assert r == [es[0]] + rest;
        var j :| 0 <= j < |rest| && rest[j].keys == keys;
        assert r[j + 1].keys == keys;
      }
    } else {
      assert Put(es, keys, loader)[0].keys == keys;
    }
  }

  /** The entries after a put are those before, plus the written key when it is new. */
  lemma {:induction false} PutOnlyAddsItsKey(es: seq<Entry>, keys: seq<string>, loader: Loader)
    ensures forall e :: e in Put(es, keys, loader) ==> e in es || e == Entry(keys, loader)
  {
    if es != [] && es[0].keys != keys {
      PutOnlyAddsItsKey(es[1..], keys, loader);
    }
  }

  /** `addFormat` keeps the map a map of lowercase extensions. */
  lemma PutKeepsWellFormed(es: seq<Entry>, keys: seq<string>, loader: Loader)
    requires DistinctKeys(es) && LowercaseKeys(es)
    ensures DistinctKeys(Put(es, LowerAll(keys), loader)) && LowercaseKeys(Put(es, LowerAll(keys), loader))
  {
    var lk := LowerAll(keys);
    if HasKey(es, lk) {
      var i :| 0 <= i < |es| && es[i].keys == lk;
      PutExistingKeyReplaces(es, lk, loader, i);
    } else {
      PutNewKeyAppends(es, lk, loader);
    }
  }

  /** The position a put of `keys` writes: the entry already stored under `keys`, or the end. */
  function PutPosition(es: seq<Entry>, keys: seq<string>): (p: nat)
    ensures p <= |es|
    ensures p < |es| ==> es[p].keys == keys
    ensures p == |es| <==> !HasKey(es, keys)
    ensures forall j :: 0 <= j < p ==> es[j].keys != keys
  {
    if es == [] then 0
    else if es[0].keys == keys then 0
    else
      var p := PutPosition(es[1..], keys) + 1;
      assert forall j :: 1 <= j < |es| ==> es[j] == es[1..][j - 1];
      p
  }

  /** The lookup tests the first entry, then goes on with the rest. */
  lemma FirstHoldingCons(e: Entry, rest: seq<Entry>, ext: string)
    ensures FirstHolding([e] + rest, ext) == if ext in e.keys then Some(e.loader) else FirstHolding(rest, ext)
  {
    assert ([e] + rest)[1..] == rest;
  }

  /**
   * After a put of `lk`, an extension of `lk` finds the loader of the first entry before
   * the written position that holds it, and the new loader when no such entry exists.
   */
  lemma {:induction false} FirstHoldingAfterPut(es: seq<Entry>, lk: seq<string>, loader: Loader, ext: string)
    requires ext in lk
    ensures var before := FirstHolding(es[..PutPosition(es, lk)], ext);
      FirstHolding(Put(es, lk, loader), ext) == if before.Some? then before else Some(loader)
  {
    var p := PutPosition(es, lk);
    if es == [] {
      assert es[..p] == [];
      FirstHoldingCons(Entry(lk, loader), [], ext);
    } else if es[0].keys == lk {
      assert es[..p] == [];
      FirstHoldingCons(Entry(lk, loader), es[1..], ext);
    } else {
      var tail := es[1..];
      assert p == PutPosition(tail, lk) + 1;
      assert Put(es, lk, loader) == [es[0]] + Put(tail, lk, loader);
      assert es[..p] == [es[0]] + tail[..p - 1];
      FirstHoldingCons(es[0], Put(tail, lk, loader), ext);
      FirstHoldingCons(es[0], tail[..p - 1], ext);
      FirstHoldingAfterPut(tail, lk, loader, ext);
    }
  }

  /**
   * After `addFormat(keys, x)` an extension of `keys`, in any case, finds `x`, unless an
   * entry before the written position already holds it; then the first such entry's
   * loader is found.
   */
  lemma FindAfterPut(es: seq<Entry>, keys: seq<string>, loader: Loader, extension: string)
    requires Lower(extension) in LowerAll(keys)
    ensures var before := FirstHolding(es[..PutPosition(es, LowerAll(keys))], Lower(extension));
      Find(Put(es, LowerAll(keys), loader), extension) == if before.Some? then before else Some(loader)
  {
    FirstHoldingAfterPut(es, LowerAll(keys), loader, Lower(extension));
  }

  /** Written over an existing key, that key's extensions find the new loader unless an earlier entry holds them. */
  lemma ReplacedKeyFound(es: seq<Entry>, keys: seq<string>, loader: Loader, ext: string, p: nat)
    requires DistinctKeys(es) && p < |es| && es[p].keys == keys && ext in keys
    requires forall j :: 0 <= j < p ==> ext !in es[j].keys
    ensures FirstHolding(Put(es, keys, loader), ext) == Some(loader)
  {
    FirstHoldingAfterPut(es, keys, loader, ext);
  }

  // ---------------------------------------------------------------------------
  // The registry object

  /** `FileFormats`: the map, filled with the defaults on construction. */
  class FileFormats {
    var formats: seq<Entry>

    ghost predicate Valid()
      reads this
    {
      DistinctKeys(formats) && LowercaseKeys(formats)
    }

    /** `init { formats.putAll(defaults) }`. */
    constructor ()
      ensures Valid()
      ensures formats == Defaults
    {
      formats := Defaults;
      DefaultsWellFormed();
    }

    /** `findFormat(extension)`. */
    function FindFormat(extension: string): (r: Option<Loader>)
      reads this
      ensures r.Some? <==> exists i :: 0 <= i < |formats| && Lower(extension) in formats[i].keys
    {
      Find(formats, extension)
    }

    /** `addFormat(extension, loader)`: stores `loader` under the lowercased list. */
    method AddFormat(extension: seq<string>, loader: Loader)
      requires Valid()
      modifies this
      ensures Valid()
      ensures formats == Put(old(formats), LowerAll(extension), loader)
    {
      PutKeepsWellFormed(formats, extension, loader);
      formats := Put(formats, LowerAll(extension), loader);
    }
  }
}
