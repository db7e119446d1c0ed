/**
 * The QSettings INI store seen as a finite map from "group/key" paths to
 * values: lookup with a default, the change-detecting write FortSettings
 * performs, removal of a key with its sub-keys, and the child keys of a group.
 */
module IniStore {
  import opened QtTypes

  type Ini = map<string, Variant>

  /** QSettings::value(key, defaultValue): the stored value, or the default when absent. */
  function Value(ini: Ini, key: string, default: Variant): (v: Variant)
    ensures key in ini ==> v == ini[key]
    ensures key !in ini ==> v == default
  {
    if key in ini then ini[key] else default
  }

  /**
   * The store after FortSettings::setIniValue(key, value, default): nothing is
   * written when the stored-or-default value already equals the new value.
   */
  function Store(ini: Ini, key: string, value: Variant, default: Variant): (r: Ini)
    ensures Value(r, key, default) == value
    ensures forall k :: k != key ==> Value(r, k, Invalid) == Value(ini, k, Invalid)
    ensures r.Keys <= ini.Keys + {key}
    ensures r == ini <==> Value(ini, key, default) == value
  {
    if Value(ini, key, default) == value then ini else ini[key := value]
  }

  /** One setIniValue call: the full key, the value and the default it is compared against. */
  datatype Entry = Entry(key: string, value: Variant, default: Variant)

  predicate KeysDistinct(es: seq<Entry>)
  {
    forall i, j :: 0 <= i < j < |es| ==> es[i].key != es[j].key
  }

  /** The store after the setIniValue calls es, performed in order. */
  function StoreAll(ini: Ini, es: seq<Entry>): Ini
  {
    if es == [] then ini
    else
      var last := es[|es| - 1];
      Store(StoreAll(ini, es[..|es| - 1]), last.key, last.value, last.default)
  }

  /** How many of the calls es actually write (and so emit iniChanged). */
  function ChangedCount(ini: Ini, es: seq<Entry>): (n: nat)
    ensures n <= |es|
  {
    if es == [] then 0
    else
      var last := es[|es| - 1];
      var before := StoreAll(ini, es[..|es| - 1]);
      ChangedCount(ini, es[..|es| - 1]) + (if Value(before, last.key, last.default) == last.value then 0 else 1)
  }

  /** Keys no call writes keep their value (and their presence). */
  lemma {:induction false} StoreAllOtherKey(ini: Ini, es: seq<Entry>, k: string, d: Variant)
    requires forall i :: 0 <= i < |es| ==> es[i].key != k
    ensures Value(StoreAll(ini, es), k, d) == Value(ini, k, d)
  {
    if es != [] {
      StoreAllOtherKey(ini, es[..|es| - 1], k, d);
      var last := es[|es| - 1];
      var before := StoreAll(ini, es[..|es| - 1]);
      assert Value(before, k, Invalid) == Value(StoreAll(ini, es), k, Invalid);
    }
  }

  /**
   * After a sequence of change-detecting writes to distinct keys, reading a
   * written key gives the written value, provided the reader uses the same
   * default as the writer (or the value differs from the writer's default, in
   * which case the write is certain to be stored).
   */
  lemma {:induction false} StoreAllValue(ini: Ini, es: seq<Entry>, j: nat, readDefault: Variant)
    requires j < |es| && KeysDistinct(es)
    requires es[j].value != es[j].default || readDefault == es[j].default
    ensures Value(StoreAll(ini, es), es[j].key, readDefault) == es[j].value
  {
    var init := es[..|es| - 1];
    var last := es[|es| - 1];
    var before := StoreAll(ini, init);
    if j == |es| - 1 {
      if Value(before, last.key, last.default) != last.value {
        assert StoreAll(ini, es) == before[last.key := last.value];
      } else if last.value != last.default {
        assert last.key in before;
      }
    } else {
      assert KeysDistinct(init);
      StoreAllValue(ini, init, j, readDefault);
      assert es[j] == init[j];
      assert es[j].key != last.key;
    }
  }

  /** "k" lies strictly inside group g, i.e. k is "g/..." */
  predicate InGroup(g: string, k: string)
  {
    |g| + 1 <= |k| && k[..|g| + 1] == g + "/"
  }

  /**
   * QSettings::remove(key): removes key and every key below it; an empty key
   * removes every key of the (top-level) group.
   */
  function Remove(ini: Ini, key: string): (r: Ini)
    ensures r.Keys <= ini.Keys
    ensures key != "" ==> forall k :: k in r <==> k in ini && k != key && !InGroup(key, k)
    ensures forall k :: k in r ==> r[k] == ini[k]
    ensures key == "" ==> r == map[]
  {
    if key == "" then map[] else map k | k in ini && k != key && !InGroup(key, k) :: ini[k]
  }

  /** After remove(g) no child key of g is left. */
  lemma RemovedGroupIsEmpty(ini: Ini, g: string)
    ensures forall name {:trigger ChildKey(g, name)} :: ChildKey(g, name) !in Remove(ini, g)
  {
  }

  /** A name QSettings lists as a child key: non-empty and not itself a group path. */
  predicate IsChildName(name: string)
  {
    name != "" && '/' !in name
  }

  /** The full key of child key "name" of group g. */
  function ChildKey(g: string, name: string): (k: string)
    ensures InGroup(g, k) && k[|g| + 1..] == name
  {
    var k := g + "/" + name;
    assert k[..|g| + 1] == g + "/";
    k
  }

  lemma ChildKeyInjective(g: string)
    ensures forall a, b {:trigger ChildKey(g, a), ChildKey(g, b)} :: ChildKey(g, a) == ChildKey(g, b) ==> a == b
  {
  }

  /** QSettings::childKeys() inside group g: the direct child names that hold a value. */
  function ChildKeys(ini: Ini, g: string): (names: set<string>)
    ensures forall name :: name in names ==> IsChildName(name)
  {
    set k | k in ini && InGroup(g, k) && IsChildName(k[|g| + 1..]) :: k[|g| + 1..]
  }

  lemma ChildKeysMember(ini: Ini, g: string, name: string)
    ensures name in ChildKeys(ini, g) <==> IsChildName(name) && ChildKey(g, name) in ini
  {
    if name in ChildKeys(ini, g) {
      var k :| k in ini && InGroup(g, k) && IsChildName(k[|g| + 1..]) && k[|g| + 1..] == name;
      assert k == k[..|g| + 1] + k[|g| + 1..];
      assert k == ChildKey(g, name);
    }
    if IsChildName(name) && ChildKey(g, name) in ini {
      var k := ChildKey(g, name);
      assert k in ini && InGroup(g, k) && IsChildName(k[|g| + 1..]);
    }
  }
}
