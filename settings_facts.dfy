/**
 * What the settings resolver guarantees: how a dotted key picks its layer
 * and walks into the value, how resolution treats dicts, lists, scalars and
 * strings, and that the nesting bound only ever cuts off lookups that would
 * otherwise recurse further.
 */
module SettingsFacts {
  import opened Wrappers
  import opened Text
  import opened Settings

  // ---------------------------------------------------------------------------
  // Key-path lookup
  // ---------------------------------------------------------------------------

  /**
   * A key without dots names a top-level setting: the project data's entry when
   * the project has that key, otherwise the plugin setting, otherwise None.
   */
  lemma RawTopLevel(cfg: Config, k: string)
    requires '.' !in k
    ensures cfg.project.Some? && k in Keys(cfg.project.value) ==>
      Raw(cfg, k) == Ok(cfg.project.value[Find(cfg.project.value, k).value].value)
    ensures !(cfg.project.Some? && k in Keys(cfg.project.value)) && k in Keys(cfg.global) ==>
      Raw(cfg, k) == Ok(cfg.global[Find(cfg.global, k).value].value)
    ensures !(cfg.project.Some? && k in Keys(cfg.project.value)) && k !in Keys(cfg.global) ==>
      Raw(cfg, k) == Ok(Null)
  {
    SplitFree(k, '.');
  }

  lemma {:induction false} SplitAppend(a: string, sep: char, b: string)
    requires sep !in b
    ensures Split(a + [sep] + b, sep) == Split(a, sep) + [b]
    decreases |a|
  {
    if a == [] {
      assert a + [sep] + b == [sep] + b;
      assert ([sep] + b)[1..] == b;
      SplitFree(b, sep);
    } else {
      SplitAppend(a[1..], sep, b);
      assert (a + [sep] + b)[1..] == a[1..] + [sep] + b;
      var rest := Split(a[1..], sep);
      if a[0] != sep {
        assert (rest + [b])[1..] == rest[1..] + [b];
      }
    }
  }

  lemma {:induction false} WalkAppend(v: Value, segs: seq<string>, seg: string)
    ensures Walk(v, segs + [seg]) ==
      match Walk(v, segs)
      case Err(e) => Err(e)
      case Ok(c) => Index(c, seg)
    decreases |segs|
  {
    if segs == [] {
      assert segs + [seg] == [seg];
      assert [seg][1..] == [];
    } else {
      assert (segs + [seg])[0] == segs[0];
      assert (segs + [seg])[1..] == segs[1..] + [seg];
      match Index(v, segs[0])
      case Err(_) =>
      case Ok(c) => WalkAppend(c, segs[1..], seg);
    }
  }

  /**
   * Each later segment of a dotted key indexes what the key before it names:
   * a missing key is KeyMissing, a non-dict is NotIndexable, and an earlier
   * failure is kept. There is no default value.
   */
  lemma RawExtend(cfg: Config, key: string, seg: string)
    requires '.' !in seg
    ensures Raw(cfg, key + "." + seg) ==
      match Raw(cfg, key)
      case Err(e) => Err(e)
      case Ok(v) => Index(v, seg)
    ensures Raw(cfg, key).Ok? && Raw(cfg, key).value.Dict? && seg !in Keys(Raw(cfg, key).value.entries) ==>
      Raw(cfg, key + "." + seg) == Err(KeyMissing(seg))
    ensures Raw(cfg, key).Ok? && !Raw(cfg, key).value.Dict? ==>
      Raw(cfg, key + "." + seg) == Err(NotIndexable(seg))
  {
    SplitAppend(key, '.', seg);
    var segs := Split(key, '.');
    assert key + "." + seg == key + ['.'] + seg;
    assert (segs + [seg])[0] == segs[0];
    assert (segs + [seg])[1..] == segs[1..] + [seg];
    WalkAppend(Root(cfg, segs[0]), segs[1..], seg);
  }

  // ---------------------------------------------------------------------------
  // Resolution of containers and scalars
  // ---------------------------------------------------------------------------

  lemma {:induction false} ResolveEntriesSpec(cfg: Config, es: seq<Entry>, fuel: nat)
    ensures ResolveEntries(cfg, es, fuel).Ok? <==>
      forall i :: 0 <= i < |es| ==> Resolve(cfg, es[i].value, fuel).Ok?
    ensures ResolveEntries(cfg, es, fuel).Ok? ==>
      var rs := ResolveEntries(cfg, es, fuel).value;
      |rs| == |es| &&
      forall i :: 0 <= i < |es| ==> rs[i] == Entry(es[i].key, Resolve(cfg, es[i].value, fuel).value)
    ensures ResolveEntries(cfg, es, fuel).Err? ==>
      exists i :: 0 <= i < |es| && Resolve(cfg, es[i].value, fuel) == Err(ResolveEntries(cfg, es, fuel).error) &&
        forall j :: 0 <= j < i ==> Resolve(cfg, es[j].value, fuel).Ok?
    decreases |es|
  {
    if es != [] {
      ResolveEntriesSpec(cfg, es[1..], fuel);
      assert forall i :: 1 <= i < |es| ==> es[1..][i - 1] == es[i];
      match Resolve(cfg, es[0].value, fuel)
      case Err(e) =>
      case Ok(x) =>
        var rest := ResolveEntries(cfg, es[1..], fuel);
        if rest.Err? {
          var i :| 0 <= i < |es[1..]| && Resolve(cfg, es[1..][i].value, fuel) == Err(rest.error) &&
            forall j :: 0 <= j < i ==> Resolve(cfg, es[1..][j].value, fuel).Ok?;
          assert Resolve(cfg, es[i + 1].value, fuel) == Err(rest.error);
        }
    }
  }

  lemma {:induction false} ResolveItemsSpec(cfg: Config, items: seq<Value>, fuel: nat)
    ensures ResolveItems(cfg, items, fuel).Ok? <==>
      forall i :: 0 <= i < |items| ==> Resolve(cfg, items[i], fuel).Ok?
    ensures ResolveItems(cfg, items, fuel).Ok? ==>
      var rs := ResolveItems(cfg, items, fuel).value;
      |rs| == |items| &&
      forall i :: 0 <= i < |items| ==> rs[i] == Resolve(cfg, items[i], fuel).value
    ensures ResolveItems(cfg, items, fuel).Err? ==>
      exists i :: 0 <= i < |items| && Resolve(cfg, items[i], fuel) == Err(ResolveItems(cfg, items, fuel).error) &&
        forall j :: 0 <= j < i ==> Resolve(cfg, items[j], fuel).Ok?
    decreases |items|
  {
    if items != [] {
      ResolveItemsSpec(cfg, items[1..], fuel);
      assert forall i :: 1 <= i < |items| ==> items[1..][i - 1] == items[i];
      match Resolve(cfg, items[0], fuel)
      case Err(e) =>
      case Ok(x) =>
        var rest := ResolveItems(cfg, items[1..], fuel);
        if rest.Err? {
          var i :| 0 <= i < |items[1..]| && Resolve(cfg, items[1..][i], fuel) == Err(rest.error) &&
            forall j :: 0 <= j < i ==> Resolve(cfg, items[1..][j], fuel).Ok?;
          assert Resolve(cfg, items[i + 1], fuel) == Err(rest.error);
        }
    }
  }

  /**
   * A dict without the current platform's key keeps exactly its keys, in
   * order, each value replaced by its resolution; it fails exactly when one of
   * its values fails, with the error of the first one that does.
   */
  lemma ResolveDictKeepsKeys(cfg: Config, es: seq<Entry>, fuel: nat)
    requires PlatformKey(cfg.platform) !in Keys(es)
    ensures Resolve(cfg, Dict(es), fuel).Ok? <==>
      forall i :: 0 <= i < |es| ==> Resolve(cfg, es[i].value, fuel).Ok?
    ensures Resolve(cfg, Dict(es), fuel).Ok? ==>
      var r := Resolve(cfg, Dict(es), fuel).value;
      r.Dict? && Keys(r.entries) == Keys(es) &&
      forall i :: 0 <= i < |es| ==> r.entries[i].value == Resolve(cfg, es[i].value, fuel).value
    ensures Resolve(cfg, Dict(es), fuel).Err? ==>
      exists i :: 0 <= i < |es| && Resolve(cfg, es[i].value, fuel) == Resolve(cfg, Dict(es), fuel) &&
        forall j :: 0 <= j < i ==> Resolve(cfg, es[j].value, fuel).Ok?
  {
    ResolveEntriesSpec(cfg, es, fuel);
    var r := ResolveEntries(cfg, es, fuel);
    if r.Ok? {
      assert Keys(r.value) == Keys(es);
    }
  }

  /**
   * A list keeps its length and order, each element replaced by its
   * resolution; it fails exactly when one element fails, with the error of the
   * first one that does.
   */
  lemma ResolveListKeepsOrder(cfg: Config, items: seq<Value>, fuel: nat)
    ensures Resolve(cfg, List(items), fuel).Ok? <==>
      forall i :: 0 <= i < |items| ==> Resolve(cfg, items[i], fuel).Ok?
    ensures Resolve(cfg, List(items), fuel).Ok? ==>
      var r := Resolve(cfg, List(items), fuel).value;
      r.List? && |r.items| == |items| &&
      forall i :: 0 <= i < |items| ==> r.items[i] == Resolve(cfg, items[i], fuel).value
    ensures Resolve(cfg, List(items), fuel).Err? ==>
      exists i :: 0 <= i < |items| && Resolve(cfg, items[i], fuel) == Resolve(cfg, List(items), fuel) &&
        forall j :: 0 <= j < i ==> Resolve(cfg, items[j], fuel).Ok?
  {
    ResolveItemsSpec(cfg, items, fuel);
  }

  /** Numbers, booleans and None come back unchanged, whatever the bound. */
  lemma ResolveScalar(cfg: Config, v: Value, fuel: nat)
    requires v.Int? || v.Bool? || v.Null?
    ensures Resolve(cfg, v, fuel) == Ok(v)
  {
  }

  lemma {:induction false} FindAfterAbsent(before: seq<Entry>, k: string, b: Value, after: seq<Entry>)
    requires k !in Keys(before)
    ensures Find(before + [Entry(k, b)] + after, k) == Some(|before|)
    decreases |before|
  {
    var es := before + [Entry(k, b)] + after;
    if before == [] {
      assert es[0] == Entry(k, b);
    } else {
      assert es[0] == before[0];
      assert before[0].key != k by {
        assert Keys(before)[0] == before[0].key;
      }
      assert k !in Keys(before[1..]) by {
        forall j | 0 <= j < |before| - 1
          ensures Keys(before[1..])[j] != k
        {
          assert Keys(before)[j + 1] == before[1..][j].key;
        }
      }
      assert es[1..] == before[1..] + [Entry(k, b)] + after;
      FindAfterAbsent(before[1..], k, b, after);
    }
  }

  /**
   * A dict that holds the current platform's key resolves to the resolution of
   * that branch alone, whatever its other entries are.
   */
  lemma ResolvePlatformBranch(cfg: Config, before: seq<Entry>, branch: Value, after: seq<Entry>, fuel: nat)
    requires PlatformKey(cfg.platform) !in Keys(before)
    ensures Resolve(cfg, Dict(before + [Entry(PlatformKey(cfg.platform), branch)] + after), fuel) ==
      Resolve(cfg, branch, fuel)
  {
    FindAfterAbsent(before, PlatformKey(cfg.platform), branch, after);
  }

  /** No dict anywhere in `v` has the key `key`. */
  predicate PlatformFree(v: Value, key: string)
    decreases v
  {
    match v
    case Dict(es) => key !in Keys(es) && forall i :: 0 <= i < |es| ==> PlatformFree(es[i].value, key)
    case List(items) => forall i :: 0 <= i < |items| ==> PlatformFree(items[i], key)
    case _ => true
  }

  /** Every platform-keyed dict is collapsed: a resolved value holds no dict with the current platform's key. */
  lemma {:induction false} ResolvedPlatformFree(cfg: Config, v: Value, fuel: nat)
    requires Resolve(cfg, v, fuel).Ok?
    ensures PlatformFree(Resolve(cfg, v, fuel).value, PlatformKey(cfg.platform))
    decreases v
  {
    var key := PlatformKey(cfg.platform);
    match v
    case Dict(es) =>
      match Find(es, key) {
        case Some(i) =>
          ResolvedPlatformFree(cfg, es[i].value, fuel);
        case None =>
          ResolveDictKeepsKeys(cfg, es, fuel);
          var r := Resolve(cfg, v, fuel).value;
          forall i | 0 <= i < |es| ensures PlatformFree(r.entries[i].value, key) {
            ResolvedPlatformFree(cfg, es[i].value, fuel);
          }
      }
    case List(items) =>
      ResolveListKeepsOrder(cfg, items, fuel);
      var r := Resolve(cfg, v, fuel).value;
      forall i | 0 <= i < |items| ensures PlatformFree(r.items[i], key) {
        ResolvedPlatformFree(cfg, items[i], fuel);
      }
    case _ =>
  }

  /** `r` has the shape of `v`: same dict keys, same list lengths, strings for strings and equal scalars. */
  predicate SameShape(v: Value, r: Value)
    decreases v
  {
    match v
    case Str(_) => r.Str?
    case Dict(es) =>
      r.Dict? && Keys(r.entries) == Keys(es) &&
      forall i :: 0 <= i < |es| ==> SameShape(es[i].value, r.entries[i].value)
    case List(items) =>
      r.List? && |r.items| == |items| &&
      forall i :: 0 <= i < |items| ==> SameShape(items[i], r.items[i])
    case _ => r == v
  }

  /**
   * Where no dict has the current platform's key, resolution only rewrites
   * strings: keys, list lengths, numbers, booleans and None all stay as they are.
   */
  lemma {:induction false} ResolvePreservesShape(cfg: Config, v: Value, fuel: nat)
    requires PlatformFree(v, PlatformKey(cfg.platform))
    requires Resolve(cfg, v, fuel).Ok?
    ensures SameShape(v, Resolve(cfg, v, fuel).value)
    decreases v
  {
    match v
    case Dict(es) =>
      ResolveDictKeepsKeys(cfg, es, fuel);
      var r := Resolve(cfg, v, fuel).value;
      forall i | 0 <= i < |es| ensures SameShape(es[i].value, r.entries[i].value) {
        ResolvePreservesShape(cfg, es[i].value, fuel);
      }
    case List(items) =>
      ResolveListKeepsOrder(cfg, items, fuel);
      var r := Resolve(cfg, v, fuel).value;
      forall i | 0 <= i < |items| ensures SameShape(items[i], r.items[i]) {
        ResolvePreservesShape(cfg, items[i], fuel);
      }
    case _ =>
  }

  // ---------------------------------------------------------------------------
  // Resolution of strings
  // ---------------------------------------------------------------------------

  /** `s` has no `${`. */
  predicate NoMarker(s: string)
  {
    forall j :: 0 <= j < |s| - 1 ==> !(s[j] == '$' && s[j + 1] == '{')
  }

  lemma {:induction false} NoMarkerNoTokens(s: string)
    requires NoMarker(s)
    ensures FindTokens(s) == []
    decreases |s|
  {
    if |s| >= 2 {
      assert !(s[0] == '$' && s[1] == '{');
      assert forall j :: 0 <= j < |s[1..]| ==> s[1..][j] == s[j + 1];
      NoMarkerNoTokens(s[1..]);
    }
  }

  /** A string with no `${` holds no `${t}`, so replacing `${t}` leaves it as it is. */
  lemma NoMarkerNoReference(s: string, t: string, x: string)
    requires NoMarker(s)
    ensures ReplaceAll(s, Reference(t), x) == s
  {
    var p := Reference(t);
    assert p[0] == '$' && p[1] == '{' && |p| >= 3;
    forall j | 0 <= j <= |s| ensures !StartsWith(s[j..], p) {
      if j + |p| <= |s| {
        assert !(s[j] == '$' && s[j + 1] == '{');
        assert s[j..][..|p|][0] == s[j] && s[j..][..|p|][1] == s[j + 1];
      }
    }
    ReplaceAllAbsent(s, p, x);
  }

  /** A string with no `${` after environment expansion comes back as the expanded string. */
  lemma ResolvePlainString(cfg: Config, s: string, fuel: nat)
    requires NoMarker(cfg.expandVars(s))
    ensures Resolve(cfg, Str(s), fuel) == Ok(Str(cfg.expandVars(s)))
  {
    NoMarkerNoTokens(cfg.expandVars(s));
  }

  /** A reference after a marker-free prefix is the first token, and the tokens of the rest follow it. */
  lemma {:induction false} FindTokensCons(a: string, k: string, b: string)
    requires NoMarker(a) && '}' !in k
    ensures FindTokens(a + Reference(k) + b) == [k] + FindTokens(b)
    decreases |a|
  {
    var s := a + Reference(k) + b;
    if a == [] {
      assert s == Reference(k) + b;
      FindTokensAtReference(k, b);
    } else {
      assert s[0] == a[0];
      assert |a| >= 2 ==> s[1] == a[1];
      assert |a| == 1 ==> s[1] == '$';
      assert !(s[0] == '$' && s[1] == '{');
      assert s[1..] == a[1..] + Reference(k) + b;
      assert NoMarker(a[1..]) by {
        assert forall j :: 0 <= j < |a[1..]| ==> a[1..][j] == a[j + 1];
      }
      FindTokensCons(a[1..], k, b);
    }
  }

  /** A string whose only `${` is one reference has that reference's key as its one token. */
  lemma FindTokensSingle(a: string, k: string, b: string)
    requires NoMarker(a) && NoMarker(b) && '}' !in k
    ensures FindTokens(a + Reference(k) + b) == [k]
  {
    FindTokensCons(a, k, b);
    NoMarkerNoTokens(b);
  }

  /** No occurrence of `${k}` starts inside a marker-free prefix. */
  lemma FirstReferenceAt(a: string, k: string, b: string)
    requires NoMarker(a)
    ensures forall j :: 0 <= j < |a| ==> !StartsWith((a + Reference(k) + b)[j..], Reference(k))
  {
    var s := a + Reference(k) + b;
    var p := Reference(k);
    assert p[0] == '$' && p[1] == '{' && |p| >= 3;
    forall j | 0 <= j < |a| ensures !StartsWith(s[j..], p) {
      assert s[j] == a[j];
      if j + 1 < |a| {
        assert !(a[j] == '$' && a[j + 1] == '{');
        assert s[j + 1] == a[j + 1];
      } else {
        assert s[j + 1] == '$';
      }
      assert s[j..][..|p|][0] == s[j] && s[j..][..|p|][1] == s[j + 1];
    }
  }

  /** A reference at the very start is found as the first token. */
  lemma FindTokensAtReference(k: string, b: string)
    requires '}' !in k
    ensures FindTokens(Reference(k) + b) == [k] + FindTokens(b)
  {
    var s := Reference(k) + b;
    assert s == "${" + k + "}" + b;
    assert s[0] == '$' && s[1] == '{';
    var t := s[2..];
    assert t == k + "}" + b;
    assert IndexOf(t, '}') == Some(|k|) by {
      var r := IndexOf(t, '}');
      assert t[|k|] == '}';
      assert t[..|k|] == k;
      forall m | |k| < m <= |t|
        ensures '}' in t[..m]
      {
        assert t[..m][|k|] == '}';
      }
    }
    assert s[2..2 + |k|] == k;
    assert s[3 + |k|..] == b;
  }

  /**
   * A string holding one reference `${k}` (and no other `${`) resolves to the
   * text around it with `str(Settings.get(k))` in its place, or fails as that
   * lookup fails.
   */
  lemma ResolveSingleReference(cfg: Config, s: string, a: string, k: string, b: string, fuel: nat)
    requires cfg.expandVars(s) == a + Reference(k) + b
    requires NoMarker(a) && NoMarker(b) && '}' !in k
    ensures Resolve(cfg, Str(s), fuel) ==
      if fuel == 0 then Err(RecursionLimit)
      else
        match Lookup(cfg, k, fuel - 1)
        case Err(e) => Err(e)
        case Ok(v) => Ok(Str(a + Show(cfg, v) + b))
  {
    var t := cfg.expandVars(s);
    FindTokensSingle(a, k, b);
    assert Resolve(cfg, Str(s), fuel) ==
      match Substitute(cfg, t, [k], fuel)
      case Err(e) => Err(e)
      case Ok(r) => Ok(Str(r));
    if fuel > 0 {
      match Lookup(cfg, k, fuel - 1)
      case Err(_) =>
      case Ok(v) =>
        var shown := Show(cfg, v);
        ReplaceAroundReference(a, k, b, shown);
        assert [k][1..] == [];
        assert Substitute(cfg, t, [k], fuel) == Substitute(cfg, a + shown + b, [], fuel);
    }
  }

  lemma ReplaceAroundReference(a: string, k: string, b: string, x: string)
    requires NoMarker(a) && NoMarker(b)
    ensures ReplaceAll(a + Reference(k) + b, Reference(k), x) == a + x + b
  {
    var t := a + Reference(k) + b;
    FirstReferenceAt(a, k, b);
    ReplaceAllSkip(t, |a|, Reference(k), x);
    assert t[..|a|] == a;
    assert t[|a|..] == Reference(k) + b;
    ReplaceAllHead(Reference(k), b, x);
    NoMarkerNoReference(b, k, x);
  }

  // ---------------------------------------------------------------------------
  // Strings with several references
  // ---------------------------------------------------------------------------

  /** `parts[0] + xs[0] + parts[1] + ... + xs[n - 1] + parts[n]`. */
  function Fill(parts: seq<string>, xs: seq<string>): string
    requires |parts| == |xs| + 1
    decreases xs
  {
    if xs == [] then parts[0] else parts[0] + xs[0] + Fill(parts[1..], xs[1..])
  }

  /** The references `${k}` to the keys `keys`. */
  function Refs(keys: seq<string>): seq<string>
  {
    seq(|keys|, i requires 0 <= i < |keys| => Reference(keys[i]))
  }

  /** What `str(self.get(k))` puts in place of `${k}`; empty when the lookup fails. */
  function ShownText(cfg: Config, k: string, fuel: nat): string
  {
    match Lookup(cfg, k, fuel)
    case Ok(v) => Show(cfg, v)
    case Err(_) => ""
  }

  function ShownTexts(cfg: Config, keys: seq<string>, fuel: nat): seq<string>
  {
    seq(|keys|, i requires 0 <= i < |keys| => ShownText(cfg, keys[i], fuel))
  }

  /** The error of the first key, in order, whose lookup fails. */
  function FirstFailure(cfg: Config, keys: seq<string>, fuel: nat): Option<Error>
  {
    if keys == [] then None
    else
      match Lookup(cfg, keys[0], fuel)
      case Err(e) => Some(e)
      case Ok(_) => FirstFailure(cfg, keys[1..], fuel)
  }

  /** A key that can neither open nor close a reference inside `${...}`. */
  predicate PlainKey(k: string)
  {
    '$' !in k && '}' !in k
  }

  lemma ReferenceInjective(a: string, b: string)
    requires Reference(a) == Reference(b)
    ensures a == b
  {
    assert Reference(a)[2..|a| + 2] == a;
    assert Reference(b)[2..|b| + 2] == b;
  }

  /** No reference starts inside a text without `$`. */
  lemma DollarFreeNoMatch(y: string, rest: string, k: string)
    requires '$' !in y
    ensures forall j :: 0 <= j < |y| ==> !StartsWith((y + rest)[j..], Reference(k))
  {
    var p := Reference(k);
    assert p[0] == '$';
    forall j | 0 <= j < |y| ensures !StartsWith((y + rest)[j..], p) {
      assert (y + rest)[j] == y[j];
      if |p| <= |(y + rest)[j..]| {
        assert (y + rest)[j..][..|p|][0] == (y + rest)[j];
      }
    }
  }

  /** No `${k}` starts inside a reference to another plain key. */
  lemma OtherReferenceNoMatch(other: string, rest: string, k: string)
    requires PlainKey(k) && PlainKey(other) && k != other
    ensures forall j :: 0 <= j < |Reference(other)| ==> !StartsWith((Reference(other) + rest)[j..], Reference(k))
  {
    var s := Reference(other) + rest;
    var p := Reference(k);
    assert p[0] == '$';
    forall j | 0 <= j < |Reference(other)| ensures !StartsWith(s[j..], p) {
      if j == 0 {
        if |p| <= |s| {
          var m: nat;
          if |k| < |other| {
            m := 2 + |k|;
            assert s[m] == other[|k|] && p[m] == '}';
          } else if |k| > |other| {
            m := 2 + |other|;
            assert s[m] == '}' && p[m] == k[|other|];
          } else {
            var i :| 0 <= i < |k| && k[i] != other[i];
            m := 2 + i;
            assert s[m] == other[i] && p[m] == k[i];
          }
          assert s[0..][..|p|][m] != p[m];
        }
      } else {
        assert s[j] == '{' || s[j] == '}' || s[j] == other[j - 2];
        if |p| <= |s[j..]| {
          assert s[j..][..|p|][0] == s[j];
        }
      }
    }
  }

  /** `ys` with every element equal to `r` replaced by `x`. */
  function Swap(ys: seq<string>, r: string, x: string): seq<string>
  {
    seq(|ys|, j requires 0 <= j < |ys| => if ys[j] == r then x else ys[j])
  }

  /** Every `ys[j]` is still the reference `${keys[j]}`, or a text without `$`. */
  predicate Staged(ys: seq<string>, keys: seq<string>)
    requires |ys| == |keys|
  {
    forall j :: 0 <= j < |ys| ==> ys[j] == Reference(keys[j]) || '$' !in ys[j]
  }

  /**
   * One fixed part and one slot: the part has no `$`, the slot is `${key}` or
   * has no `$`; replacing `${k}` touches the slot only when it is `${k}`.
   */
  lemma ReplaceAllSlot(a: string, y: string, tail: string, key: string, k: string, x: string)
    requires '$' !in a && (y == Reference(key) || '$' !in y)
    requires PlainKey(key) && PlainKey(k)
    ensures ReplaceAll(a + (y + tail), Reference(k), x) ==
      a + ((if y == Reference(k) then x else y) + ReplaceAll(tail, Reference(k), x))
  {
    var p := Reference(k);
    DollarFreeNoMatch(a, y + tail, k);
    ReplaceAllKeepPrefix(a, y + tail, p, x);
    if y == p {
      ReplaceAllHead(p, tail, x);
    } else if '$' !in y {
      DollarFreeNoMatch(y, tail, k);
      ReplaceAllKeepPrefix(y, tail, p, x);
    } else {
      OtherReferenceNoMatch(key, tail, k);
      ReplaceAllKeepPrefix(y, tail, p, x);
    }
  }

  /**
   * Replacing `${k}` in a filled-in template touches exactly the slots that
   * hold `${k}`: the fixed parts have no `$`, and no other slot can hold
   * (or, with its neighbours, form) an occurrence.
   */
  lemma {:induction false} ReplaceAllFill(parts: seq<string>, ys: seq<string>, keys: seq<string>, k: string, x: string)
    requires |parts| == |ys| + 1 && |keys| == |ys|
    requires forall m :: 0 <= m < |parts| ==> '$' !in parts[m]
    requires forall j :: 0 <= j < |keys| ==> PlainKey(keys[j])
    requires Staged(ys, keys) && PlainKey(k)
    ensures ReplaceAll(Fill(parts, ys), Reference(k), x) == Fill(parts, Swap(ys, Reference(k), x))
    decreases ys
  {
    var p := Reference(k);
    if ys == [] {
      DollarFreeNoReference(parts[0], k, x);
      assert Swap(ys, p, x) == [];
    } else {
      var tail := Fill(parts[1..], ys[1..]);
      var zs := Swap(ys, p, x);
      calc {
        ReplaceAll(Fill(parts, ys), p, x);
        { FillCons(parts, ys); }
        ReplaceAll(parts[0] + (ys[0] + tail), p, x);
        { ReplaceAllSlot(parts[0], ys[0], tail, keys[0], k, x); }
        parts[0] + (zs[0] + ReplaceAll(tail, p, x));
        { StagedTail(ys, keys);
          ReplaceAllFill(parts[1..], ys[1..], keys[1..], k, x);
          assert zs[1..] == Swap(ys[1..], p, x); }
        parts[0] + (zs[0] + Fill(parts[1..], zs[1..]));
        { FillCons(parts, zs); }
        Fill(parts, zs);
      }
    }
  }

  lemma FillCons(parts: seq<string>, ys: seq<string>)
    requires |parts| == |ys| + 1 && ys != []
    ensures Fill(parts, ys) == parts[0] + (ys[0] + Fill(parts[1..], ys[1..]))
  {
    assert parts[0] + ys[0] + Fill(parts[1..], ys[1..]) == parts[0] + (ys[0] + Fill(parts[1..], ys[1..]));
  }

  /** A text without `$` holds no reference. */
  lemma DollarFreeNoReference(a: string, k: string, x: string)
    requires '$' !in a
    ensures ReplaceAll(a, Reference(k), x) == a
  {
    DollarFreeNoMatch(a, [], k);
    assert a + [] == a;
    ReplaceAllKeepPrefix(a, [], Reference(k), x);
    ReplaceAllShort([], Reference(k), x);
  }

  lemma StagedTail(ys: seq<string>, keys: seq<string>)
    requires |ys| == |keys| > 0 && Staged(ys, keys)
    ensures Staged(ys[1..], keys[1..])
  {
    forall j | 0 <= j < |ys[1..]| ensures ys[1..][j] == Reference(keys[1..][j]) || '$' !in ys[1..][j] {
      assert ys[1..][j] == ys[j + 1] && keys[1..][j] == keys[j + 1];
    }
  }

  /** Equal keys have equal texts. */
  predicate Consistent(keys: seq<string>, xs: seq<string>)
    requires |xs| == |keys|
  {
    forall a, b :: 0 <= a < |keys| && 0 <= b < |keys| && keys[a] == keys[b] ==> xs[a] == xs[b]
  }

  /**
   * The slots after the first `i` tokens have been replaced: a reference
   * whose key is among them holds that key's text, the others are untouched.
   */
  function Stage(keys: seq<string>, xs: seq<string>, i: nat): seq<string>
    requires |xs| == |keys| && i <= |keys|
  {
    seq(|keys|, j requires 0 <= j < |keys| => if keys[j] in keys[..i] then xs[j] else Reference(keys[j]))
  }

  /** Replacing the `i`-th token moves the template on by one stage. */
  lemma StageStep(keys: seq<string>, xs: seq<string>, i: nat)
    requires |xs| == |keys| && i < |keys| && Consistent(keys, xs)
    requires forall j :: 0 <= j < |xs| ==> '$' !in xs[j]
    ensures Swap(Stage(keys, xs, i), Reference(keys[i]), xs[i]) == Stage(keys, xs, i + 1)
  {
    var a := Stage(keys, xs, i);
    var b := Stage(keys, xs, i + 1);
    var c := Swap(a, Reference(keys[i]), xs[i]);
    assert keys[..i + 1] == keys[..i] + [keys[i]];
    assert Reference(keys[i])[0] == '$';
    forall j | 0 <= j < |keys| ensures c[j] == b[j] {
      if keys[j] !in keys[..i] && keys[j] != keys[i] && a[j] == Reference(keys[i]) {
        ReferenceInjective(keys[j], keys[i]);
      }
    }
  }

  /** Replacing the `i`-th token's reference by its text moves the filled-in template on by one stage. */
  lemma FillStep(parts: seq<string>, keys: seq<string>, xs: seq<string>, i: nat)
    requires |xs| == |keys| && i < |keys| && |parts| == |keys| + 1 && Consistent(keys, xs)
    requires forall m :: 0 <= m < |parts| ==> '$' !in parts[m]
    requires forall j :: 0 <= j < |keys| ==> PlainKey(keys[j])
    requires forall j :: 0 <= j < |xs| ==> '$' !in xs[j]
    ensures ReplaceAll(Fill(parts, Stage(keys, xs, i)), Reference(keys[i]), xs[i]) == Fill(parts, Stage(keys, xs, i + 1))
  {
    var ys := Stage(keys, xs, i);
    assert Staged(ys, keys);
    ReplaceAllFill(parts, ys, keys, keys[i], xs[i]);
    StageStep(keys, xs, i);
  }

  /** A first token whose lookup succeeds is replaced by its text, and the rest go on from there. */
  lemma SubstituteHead(cfg: Config, t: string, tokens: seq<string>, fuel: nat)
    requires tokens != [] && fuel > 0 && Lookup(cfg, tokens[0], fuel - 1).Ok?
    ensures Substitute(cfg, t, tokens, fuel) ==
      Substitute(cfg, ReplaceAll(t, Reference(tokens[0]), ShownText(cfg, tokens[0], fuel - 1)), tokens[1..], fuel)
  {
    SubstituteCons(cfg, t, tokens, fuel);
  }

  /** With every lookup succeeding, substituting the remaining tokens fills in every slot. */
  lemma {:induction false} SubstituteStages(cfg: Config, parts: seq<string>, keys: seq<string>, xs: seq<string>, i: nat, fuel: nat)
    requires fuel > 0 && i <= |keys| && |parts| == |keys| + 1
    requires xs == ShownTexts(cfg, keys, fuel - 1) && Consistent(keys, xs)
    requires forall m :: 0 <= m < |parts| ==> '$' !in parts[m]
    requires forall j :: 0 <= j < |keys| ==> PlainKey(keys[j])
    requires forall j :: 0 <= j < |xs| ==> '$' !in xs[j]
    requires FirstFailure(cfg, keys[i..], fuel - 1).None?
    ensures Substitute(cfg, Fill(parts, Stage(keys, xs, i)), keys[i..], fuel) == Ok(Fill(parts, Stage(keys, xs, |keys|)))
    decreases |keys| - i
  {
    if i == |keys| {
      assert keys[i..] == [];
    } else {
      var tokens := keys[i..];
      assert tokens[0] == keys[i] && tokens[1..] == keys[i + 1..];
      assert Lookup(cfg, keys[i], fuel - 1).Ok? && FirstFailure(cfg, keys[i + 1..], fuel - 1).None?;
      assert xs[i] == ShownText(cfg, keys[i], fuel - 1);
      SubstituteHead(cfg, Fill(parts, Stage(keys, xs, i)), tokens, fuel);
      FillStep(parts, keys, xs, i);
      SubstituteStages(cfg, parts, keys, xs, i + 1, fuel);
    }
  }

  /** A failing lookup among the tokens fails the substitution with the first such error, whatever the text. */
  lemma {:induction false} SubstituteFails(cfg: Config, s: string, tokens: seq<string>, fuel: nat)
    requires fuel > 0 && FirstFailure(cfg, tokens, fuel - 1).Some?
    ensures Substitute(cfg, s, tokens, fuel) == Err(FirstFailure(cfg, tokens, fuel - 1).value)
    decreases tokens
  {
    SubstituteCons(cfg, s, tokens, fuel);
    var got := Lookup(cfg, tokens[0], fuel - 1);
    if got.Ok? {
      SubstituteFails(cfg, ReplaceAll(s, Reference(tokens[0]), Show(cfg, got.value)), tokens[1..], fuel);
    }
  }

  /** The tokens of a filled-in template are its keys, in order, repeats included. */
  lemma {:induction false} FindTokensFill(parts: seq<string>, keys: seq<string>)
    requires |parts| == |keys| + 1
    requires forall m :: 0 <= m < |parts| ==> NoMarker(parts[m])
    requires forall j :: 0 <= j < |keys| ==> '}' !in keys[j]
    ensures FindTokens(Fill(parts, Refs(keys))) == keys
    decreases keys
  {
    if keys == [] {
      NoMarkerNoTokens(parts[0]);
    } else {
      var rest := Fill(parts[1..], Refs(keys[1..]));
      assert Refs(keys)[1..] == Refs(keys[1..]);
      assert Fill(parts, Refs(keys)) == parts[0] + Reference(keys[0]) + rest;
      FindTokensCons(parts[0], keys[0], rest);
      FindTokensFill(parts[1..], keys[1..]);
    }
  }

  /**
   * Substituting the keys of a filled-in template: the first lookup to fail
   * decides the error; otherwise every reference holds its key's text.
   */
  lemma SubstituteFill(cfg: Config, parts: seq<string>, keys: seq<string>, fuel: nat)
    requires |parts| == |keys| + 1 && fuel > 0
    requires forall m :: 0 <= m < |parts| ==> '$' !in parts[m]
    requires forall j :: 0 <= j < |keys| ==> PlainKey(keys[j])
    requires forall j :: 0 <= j < |keys| ==> '$' !in ShownText(cfg, keys[j], fuel - 1)
    ensures Substitute(cfg, Fill(parts, Refs(keys)), keys, fuel) ==
      if FirstFailure(cfg, keys, fuel - 1).Some? then Err(FirstFailure(cfg, keys, fuel - 1).value)
      else Ok(Fill(parts, ShownTexts(cfg, keys, fuel - 1)))
  {
    if FirstFailure(cfg, keys, fuel - 1).Some? {
      SubstituteFails(cfg, Fill(parts, Refs(keys)), keys, fuel);
    } else {
      var xs := ShownTexts(cfg, keys, fuel - 1);
      assert keys[..0] == [] && keys[0..] == keys && keys[..|keys|] == keys;
      assert Stage(keys, xs, 0) == Refs(keys);
      assert Stage(keys, xs, |keys|) == xs;
      SubstituteStages(cfg, parts, keys, xs, 0, fuel);
    }
  }

  /**
   * A string whose expansion is fixed text around references `${k}`, where
   * neither the text nor the keys' shown values hold a `$` (so that no
   * replacement can form a new reference), resolves to the text with every
   * reference replaced by `str(Settings.get(k))`; the first lookup to fail
   * decides the error, and an exhausted nesting bound raises before any.
   */
  lemma ResolveReferences(cfg: Config, s: string, parts: seq<string>, keys: seq<string>, fuel: nat)
    requires |parts| == |keys| + 1
    requires cfg.expandVars(s) == Fill(parts, Refs(keys))
    requires forall m :: 0 <= m < |parts| ==> '$' !in parts[m]
    requires forall j :: 0 <= j < |keys| ==> PlainKey(keys[j])
    requires fuel > 0 ==> forall j :: 0 <= j < |keys| ==> '$' !in ShownText(cfg, keys[j], fuel - 1)
    ensures Resolve(cfg, Str(s), fuel) ==
      if keys == [] then Ok(Str(cfg.expandVars(s)))
      else if fuel == 0 then Err(RecursionLimit)
      else if FirstFailure(cfg, keys, fuel - 1).Some? then Err(FirstFailure(cfg, keys, fuel - 1).value)
      else Ok(Str(Fill(parts, ShownTexts(cfg, keys, fuel - 1))))
  {
    var t := cfg.expandVars(s);
    assert FindTokens(t) == keys by {
      forall m | 0 <= m < |parts| ensures NoMarker(parts[m]) {
        assert forall j :: 0 <= j < |parts[m]| ==> parts[m][j] != '$';
      }
      FindTokensFill(parts, keys);
    }
    if keys != [] && fuel > 0 {
      SubstituteFill(cfg, parts, keys, fuel);
    }
  }

  // ---------------------------------------------------------------------------
  // The nesting bound
  // ---------------------------------------------------------------------------

  /**
   * A lookup that did not stop at the nesting bound gives the same answer with
   * a larger bound: the bound only cuts off reference chains (and cycles),
   * never changes a result.
   */
  lemma {:induction false} LookupFuelMonotone(cfg: Config, key: string, fuel: nat)
    requires Lookup(cfg, key, fuel) != Err(RecursionLimit)
    ensures Lookup(cfg, key, fuel + 1) == Lookup(cfg, key, fuel)
    decreases fuel, 2, 0
  {
    match Raw(cfg, key)
    case Err(_) =>
    case Ok(v) => ResolveFuelMonotone(cfg, v, fuel);
  }

  lemma {:induction false} ResolveFuelMonotone(cfg: Config, v: Value, fuel: nat)
    requires Resolve(cfg, v, fuel) != Err(RecursionLimit)
    ensures Resolve(cfg, v, fuel + 1) == Resolve(cfg, v, fuel)
    decreases fuel, 1, v
  {
    match v
    case Dict(es) =>
      match Find(es, PlatformKey(cfg.platform)) {
        case Some(i) => ResolveFuelMonotone(cfg, es[i].value, fuel);
        case None => EntriesFuelMonotone(cfg, es, fuel);
      }
    case List(items) => ItemsFuelMonotone(cfg, items, fuel);
    case Str(s) =>
      var t := cfg.expandVars(s);
      SubstituteFuelMonotone(cfg, t, FindTokens(t), fuel);
    case _ =>
  }

  lemma {:induction false} EntriesFuelMonotone(cfg: Config, es: seq<Entry>, fuel: nat)
    requires ResolveEntries(cfg, es, fuel) != Err(RecursionLimit)
    ensures ResolveEntries(cfg, es, fuel + 1) == ResolveEntries(cfg, es, fuel)
    decreases fuel, 1, es
  {
    if es != [] {
      ResolveFuelMonotone(cfg, es[0].value, fuel);
      if Resolve(cfg, es[0].value, fuel).Ok? {
        EntriesFuelMonotone(cfg, es[1..], fuel);
      }
    }
  }

  lemma {:induction false} ItemsFuelMonotone(cfg: Config, items: seq<Value>, fuel: nat)
    requires ResolveItems(cfg, items, fuel) != Err(RecursionLimit)
    ensures ResolveItems(cfg, items, fuel + 1) == ResolveItems(cfg, items, fuel)
    decreases fuel, 1, items
  {
    if items != [] {
      ResolveFuelMonotone(cfg, items[0], fuel);
      if Resolve(cfg, items[0], fuel).Ok? {
        ItemsFuelMonotone(cfg, items[1..], fuel);
      }
    }
  }

  lemma {:induction false} SubstituteFuelMonotone(cfg: Config, s: string, tokens: seq<string>, fuel: nat)
    requires Substitute(cfg, s, tokens, fuel) != Err(RecursionLimit)
    ensures Substitute(cfg, s, tokens, fuel + 1) == Substitute(cfg, s, tokens, fuel)
    decreases fuel, 0, tokens
  {
    if tokens != [] {
      assert fuel > 0;
      SubstituteCons(cfg, s, tokens, fuel);
      var got := Lookup(cfg, tokens[0], fuel - 1);
      if got.Ok? {
        SubstituteTailMonotone(cfg, s, tokens, fuel, got.value);
      } else {
        SubstituteFailsMonotone(cfg, s, tokens, fuel);
      }
    }
  }

  /** The step of the induction above for a token whose lookup failed. */
  lemma SubstituteFailsMonotone(cfg: Config, s: string, tokens: seq<string>, fuel: nat)
    requires tokens != [] && fuel > 0 && Lookup(cfg, tokens[0], fuel - 1).Err?
    requires Lookup(cfg, tokens[0], fuel - 1).error != RecursionLimit
    ensures Substitute(cfg, s, tokens, fuel + 1) == Err(Lookup(cfg, tokens[0], fuel - 1).error)
    decreases fuel, 0, tokens, 0
  {
    LookupStable(cfg, tokens[0], fuel - 1, Lookup(cfg, tokens[0], fuel - 1));
  }

  /** The step of the induction above for a token that resolved to `v`. */
  lemma {:induction false} SubstituteTailMonotone(cfg: Config, s: string, tokens: seq<string>, fuel: nat, v: Value)
    requires tokens != [] && fuel > 0 && Lookup(cfg, tokens[0], fuel - 1) == Ok(v)
    requires Substitute(cfg, ReplaceAll(s, Reference(tokens[0]), Show(cfg, v)), tokens[1..], fuel) != Err(RecursionLimit)
    ensures Substitute(cfg, s, tokens, fuel + 1) == Substitute(cfg, ReplaceAll(s, Reference(tokens[0]), Show(cfg, v)), tokens[1..], fuel)
    decreases fuel, 0, tokens, 1
  {
    SubstituteResolvedMonotone(cfg, s, tokens, fuel, v);
    SubstituteFuelMonotone(cfg, ReplaceAll(s, Reference(tokens[0]), Show(cfg, v)), tokens[1..], fuel);
  }

  /** One more unit of fuel does not change the first token's lookup. */
  lemma SubstituteResolvedMonotone(cfg: Config, s: string, tokens: seq<string>, fuel: nat, v: Value)
    requires tokens != [] && fuel > 0 && Lookup(cfg, tokens[0], fuel - 1) == Ok(v)
    ensures Substitute(cfg, s, tokens, fuel + 1) == Substitute(cfg, ReplaceAll(s, Reference(tokens[0]), Show(cfg, v)), tokens[1..], fuel + 1)
    decreases fuel, 0, tokens, 0
  {
    LookupStable(cfg, tokens[0], fuel - 1, Ok(v));
  }

  /** A lookup that did not stop at the nesting bound has the same result with one more unit of fuel. */
  lemma LookupStable(cfg: Config, key: string, fuel: nat, r: Result<Value, Error>)
    requires Lookup(cfg, key, fuel) == r && r != Err(RecursionLimit)
    ensures Lookup(cfg, key, fuel + 1) == r
    decreases fuel, 3, 0
  {
    LookupFuelMonotone(cfg, key, fuel);
  }
}
