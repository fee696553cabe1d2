/**
 * A configuration file is a JSON object of strings, modelled as a map. Python's
 * `config.get(key)` is falsy both when the key is absent and when its value is "".
 */
module ConfigMaps {

  predicate Truthy(config: map<string, string>, key: string) {
    key in config && config[key] != ""
  }

  /** `config.get(key)`, with "" standing for `None`. */
  function Get(config: map<string, string>, key: string): string {
    if key in config then config[key] else ""
  }

  /** `a` can be obtained from `b` by deleting elements, so it keeps `b`'s order. */
  ghost predicate IsSubsequence<T>(a: seq<T>, b: seq<T>)
    decreases |b|
  {
    a == [] ||
    (b != [] && ((a[0] == b[0] && IsSubsequence(a[1..], b[1..])) || IsSubsequence(a, b[1..])))
  }

  /** `[key for key in keys if not config.get(key)]`: keeps the order of `keys`. */
  function Missing(config: map<string, string>, keys: seq<string>): (r: seq<string>)
    ensures IsSubsequence(r, keys)
  {
    if keys == [] then []
    else
      var rest := Missing(config, keys[1..]);
      if !Truthy(config, keys[0]) then [keys[0]] + rest else rest
  }

  /** A key is listed as missing exactly when it is one of `keys` and falsy in `config`. */
  lemma {:induction false} MissingMembership(config: map<string, string>, keys: seq<string>, k: string)
    ensures k in Missing(config, keys) <==> k in keys && !Truthy(config, k)
  {
    if keys != [] {
      MissingMembership(config, keys[1..], k);
      assert k in keys <==> k == keys[0] || k in keys[1..];
    }
  }

  /** Nothing is missing exactly when every key is truthy. */
  lemma NoneMissing(config: map<string, string>, keys: seq<string>)
    ensures Missing(config, keys) == [] <==> forall k :: k in keys ==> Truthy(config, k)
  {
    if Missing(config, keys) != [] {
      MissingMembership(config, keys, Missing(config, keys)[0]);
    }
    forall k | k in keys && !Truthy(config, k)
      ensures Missing(config, keys) != []
    {
      MissingMembership(config, keys, k);
    }
  }

  /** `[k]` when `k` is missing from `config`, else nothing. */
  function IfMissing(config: map<string, string>, k: string): seq<string> {
    if Truthy(config, k) then [] else [k]
  }

  /** One unfolding of `Missing`. */
  lemma MissingUnfold(config: map<string, string>, keys: seq<string>)
    requires keys != []
    ensures Missing(config, keys) == IfMissing(config, keys[0]) + Missing(config, keys[1..])
  {
  }
}
