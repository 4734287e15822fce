/**
 * The settings resolver of lib/helpers.py (class Settings): a dotted key is
 * looked up in the project data, falling back to the plugin's settings, and
 * the value found is rewritten recursively: a dict holding the current
 * platform's key collapses to that branch, other dicts and lists are
 * resolved element by element in place, and every `${token}` in a string is
 * replaced by the text of the setting `token`.
 *
 * The functions below are the specification; the methods Get and
 * ReplaceReferences do the same work the way the source does (loops that
 * overwrite dict values and list elements and rebind the string) and are
 * proved to agree with them.
 */
module Settings {
  import opened Wrappers
  import opened Text

  /** `sublime.platform()`. */
  datatype Platform = Windows | Osx | Linux

  /** The key under which a setting holds its branch for a platform. */
  function PlatformKey(p: Platform): string
  {
    match p
    case Windows => "windows"
    case Osx => "osx"
    case Linux => "linux"
  }

  /** A JSON-like settings value. A dict is its entries in iteration order. */
  datatype Value =
    | Str(s: string)
    | Int(i: int)
    | Bool(b: bool)
    | Null
    | List(items: seq<Value>)
    | Dict(entries: seq<Entry>)

  datatype Entry = Entry(key: string, value: Value)

  /** What `Settings.get` raises. */
  datatype Error =
    | KeyMissing(key: string)    // KeyError: a later key segment is not in the dict
    | NotIndexable(key: string)  // TypeError: a later key segment indexes a non-dict
    | RecursionLimit             // RecursionError: `${...}` references nested too deep (or cyclic)

  /**
   * What one lookup sees: the platform, the plugin's settings, the window's
   * project data (None when there is no project), environment-variable
   * expansion (`os.path.expandvars`, including the `PackageDir` variable the
   * resolver publishes) and Python's `str` of a list or dict.
   */
  datatype Config = Config(
    platform: Platform,
    global: seq<Entry>,
    project: Option<seq<Entry>>,
    expandVars: string -> string,
    reprContainer: Value -> string)

  function Keys(es: seq<Entry>): (ks: seq<string>)
    ensures |ks| == |es|
    ensures forall i :: 0 <= i < |es| ==> ks[i] == es[i].key
  {
    if es == [] then [] else [es[0].key] + Keys(es[1..])
  }

  /** The position of key `k` in a dict (`k in d`, `d[k]`). */
  function Find(es: seq<Entry>, k: string): (r: Option<nat>)
    ensures r.None? <==> k !in Keys(es)
    ensures r.Some? ==> r.value < |es| && es[r.value].key == k
  {
    if es == [] then None
    else if es[0].key == k then Some(0)
    else
      assert Keys(es) == [es[0].key] + Keys(es[1..]);
      match Find(es[1..], k)
      case None => None
      case Some(i) => Some(i + 1)
  }

  /** The value of the first key segment: project data wins, else `settings.get(k)`, which gives None when absent. */
  function Root(cfg: Config, k: string): Value
  {
    if cfg.project.Some? && Find(cfg.project.value, k).Some? then
      cfg.project.value[Find(cfg.project.value, k).value].value
    else
      match Find(cfg.global, k)
      case Some(i) => cfg.global[i].value
      case None => Null
  }

  /** `setting[k]` for a later key segment `k`. */
  function Index(v: Value, k: string): Result<Value, Error>
  {
    match v
    case Dict(es) =>
      (match Find(es, k)
       case Some(i) => Ok(es[i].value)
       case None => Err(KeyMissing(k)))
    case _ => Err(NotIndexable(k))
  }

  /** Indexes `v` by each segment in turn, stopping at the first failure. */
  function Walk(v: Value, segs: seq<string>): Result<Value, Error>
  {
    if segs == [] then Ok(v)
    else
      match Index(v, segs[0])
      case Err(e) => Err(e)
      case Ok(c) => Walk(c, segs[1..])
  }

  /** The raw value of a dotted key, before references are replaced. */
  function Raw(cfg: Config, key: string): Result<Value, Error>
  {
    var segs := Split(key, '.');
    Walk(Root(cfg, segs[0]), segs[1..])
  }

  /** The text `${t}` that refers to setting `t`. */
  function Reference(t: string): string
  {
    "${" + t + "}"
  }

  /** `str(v)`. */
  function Show(cfg: Config, v: Value): string
  {
    match v
    case Str(s) => s
    case Int(i) => IntToString(i)
    case Bool(b) => if b then "True" else "False"
    case Null => "None"
    case _ => cfg.reprContainer(v)
  }

  /**
   * The tokens of the `${...}` references in `s`, left to right: the text
   * between each `${` and the first `}` after it (the matches of `\${[^}]*}`).
   */
  function FindTokens(s: string): (ts: seq<string>)
    ensures forall i :: 0 <= i < |ts| ==> '}' !in ts[i] && Occurs(s, Reference(ts[i]))
    decreases |s|
  {
    if |s| < 2 then []
    else if s[0] == '$' && s[1] == '{' then
      match IndexOf(s[2..], '}')
      case None => []
      case Some(j) =>
        var rest := FindTokens(s[3 + j..]);
        var tok := s[2..2 + j];
        assert s[2..][..j] == tok;
        assert Reference(tok) == s[..3 + j];
        assert StartsWith(s[0..], Reference(tok));
        forall i | 0 <= i < |rest| ensures Occurs(s, Reference(rest[i])) {
          OccursInSuffix(s, 3 + j, Reference(rest[i]));
        }
        [tok] + rest
    else
      var rest := FindTokens(s[1..]);
      forall i | 0 <= i < |rest| ensures Occurs(s, Reference(rest[i])) {
        OccursInSuffix(s, 1, Reference(rest[i]));
      }
      rest
  }

  /** `p` occurs somewhere in `s`. */
  predicate Occurs(s: string, p: string)
  {
    exists j :: 0 <= j <= |s| && StartsWith(s[j..], p)
  }

  lemma OccursInSuffix(s: string, k: nat, p: string)
    requires k <= |s|
    requires Occurs(s[k..], p)
    ensures Occurs(s, p)
  {
    var j :| 0 <= j <= |s[k..]| && StartsWith(s[k..][j..], p);
    assert s[k..][j..] == s[k + j..];
  }

  lemma PrependNil<T>(r: Result<seq<T>, Error>)
    ensures Prepend([], r) == r
  {
    match r
    case Err(_) =>
    case Ok(l) => assert [] + l == l;
  }

  lemma PrependTwice<T>(a: seq<T>, b: seq<T>, r: Result<seq<T>, Error>)
    ensures Prepend(a, Prepend(b, r)) == Prepend(a + b, r)
  {
    match r
    case Err(_) =>
    case Ok(l) => assert a + (b + l) == (a + b) + l;
  }

  /** `l` with the resolved `done` in front, or the error that stopped the resolution. */
  function Prepend<T>(done: seq<T>, rest: Result<seq<T>, Error>): Result<seq<T>, Error>
  {
    match rest
    case Err(e) => Err(e)
    case Ok(l) => Ok(done + l)
  }

  /** `Settings.get(key)`; `fuel` bounds how deeply `${...}` references may nest. */
  function Lookup(cfg: Config, key: string, fuel: nat): Result<Value, Error>
    decreases fuel, 2, 0
  {
    match Raw(cfg, key)
    case Err(e) => Err(e)
    case Ok(v) => Resolve(cfg, v, fuel)
  }

  /** `Settings._replace_references(v)`. */
  function Resolve(cfg: Config, v: Value, fuel: nat): Result<Value, Error>
    decreases fuel, 1, v
  {
    match v
    case Dict(es) =>
      (match Find(es, PlatformKey(cfg.platform))
       case Some(i) => Resolve(cfg, es[i].value, fuel)
       case None =>
         match ResolveEntries(cfg, es, fuel)
         case Err(e) => Err(e)
         case Ok(rs) => Ok(Dict(rs)))
    case List(items) =>
      (match ResolveItems(cfg, items, fuel)
       case Err(e) => Err(e)
       case Ok(rs) => Ok(List(rs)))
    case Str(s) =>
      var t := cfg.expandVars(s);
      (match Substitute(cfg, t, FindTokens(t), fuel)
       case Err(e) => Err(e)
       case Ok(r) => Ok(Str(r)))
    case _ => Ok(v)
  }

  /** The dict's values resolved in order, keys kept; the first failure stops it. */
  function ResolveEntries(cfg: Config, es: seq<Entry>, fuel: nat): Result<seq<Entry>, Error>
    decreases fuel, 1, es
  {
    if es == [] then Ok([])
    else
      match Resolve(cfg, es[0].value, fuel)
      case Err(e) => Err(e)
      case Ok(x) => Prepend([Entry(es[0].key, x)], ResolveEntries(cfg, es[1..], fuel))
  }

  /** The list's elements resolved in order; the first failure stops it. */
  function ResolveItems(cfg: Config, items: seq<Value>, fuel: nat): Result<seq<Value>, Error>
    decreases fuel, 1, items
  {
    if items == [] then Ok([])
    else
      match Resolve(cfg, items[0], fuel)
      case Err(e) => Err(e)
      case Ok(x) => Prepend([x], ResolveItems(cfg, items[1..], fuel))
  }

  /**
   * Replaces, token by token, every `${token}` in `s` by the text of
   * `Settings.get(token)`; each lookup uses one unit of fuel.
   */
  function Substitute(cfg: Config, s: string, tokens: seq<string>, fuel: nat): Result<string, Error>
    decreases fuel, 0, tokens
  {
    if tokens == [] then Ok(s)
    else if fuel == 0 then Err(RecursionLimit)
    else
      match Lookup(cfg, tokens[0], fuel - 1)
      case Err(e) => Err(e)
      case Ok(v) => Substitute(cfg, ReplaceAll(s, Reference(tokens[0]), Show(cfg, v)), tokens[1..], fuel)
  }

  /** Substitute with a first token and fuel left: look it up, replace it, go on with the rest. */
  lemma SubstituteCons(cfg: Config, s: string, tokens: seq<string>, fuel: nat)
    requires tokens != [] && fuel > 0
    ensures Lookup(cfg, tokens[0], fuel - 1).Err? ==>
      Substitute(cfg, s, tokens, fuel) == Err(Lookup(cfg, tokens[0], fuel - 1).error)
    ensures Lookup(cfg, tokens[0], fuel - 1).Ok? ==>
      Substitute(cfg, s, tokens, fuel) ==
        Substitute(cfg, ReplaceAll(s, Reference(tokens[0]), Show(cfg, Lookup(cfg, tokens[0], fuel - 1).value)),
                   tokens[1..], fuel)
  {
  }

  /** Substitute works token by token: the `i`-th token's replacement, then those after it. */
  lemma SubstituteAt(cfg: Config, s: string, tokens: seq<string>, i: nat, fuel: nat)
    requires i < |tokens|
    ensures Substitute(cfg, s, [tokens[i]], fuel).Err? ==>
      Substitute(cfg, s, tokens[i..], fuel) == Substitute(cfg, s, [tokens[i]], fuel)
    ensures Substitute(cfg, s, [tokens[i]], fuel).Ok? ==>
      Substitute(cfg, s, tokens[i..], fuel) ==
        Substitute(cfg, Substitute(cfg, s, [tokens[i]], fuel).value, tokens[i + 1..], fuel)
  {
    assert tokens[i..][0] == tokens[i] && tokens[i..][1..] == tokens[i + 1..];
    assert [tokens[i]][1..] == [];
  }

  // ---------------------------------------------------------------------------
  // The source's own procedure
  // ---------------------------------------------------------------------------

  /** `Settings.get(key)`: the raw value of the dotted key, with its references then replaced. */
  method Get(cfg: Config, key: string, fuel: nat) returns (r: Result<Value, Error>)
    ensures r == Lookup(cfg, key, fuel)
    decreases fuel, 2, 0
  {
    r := ReadKey(cfg, key);
    if r.Ok? {
      r := ReplaceReferences(cfg, r.value, fuel);
    }
  }

  /** The key walk of `Settings.get`: choose the layer for the first segment, index by the others. */
  method ReadKey(cfg: Config, key: string) returns (r: Result<Value, Error>)
    ensures r == Raw(cfg, key)
  {
    var keys := Split(key, '.');
    var k := keys[0];
    var setting: Value;
    if cfg.project.Some? && Find(cfg.project.value, k).Some? {
      setting := cfg.project.value[Find(cfg.project.value, k).value].value;
    } else {
      match Find(cfg.global, k)
      case Some(j) => setting := cfg.global[j].value;
      case None => setting := Null;
    }
    var i := 1;
    while i < |keys|
      invariant 1 <= i <= |keys|
      invariant Walk(setting, keys[i..]) == Raw(cfg, key)
    {
      assert keys[i..][0] == keys[i] && keys[i..][1..] == keys[i + 1..];
      match Index(setting, keys[i])
      case Err(e) =>
        return Err(e);
      case Ok(c) =>
        setting := c;
      i := i + 1;
    }
    assert keys[i..] == [];
    r := Ok(setting);
  }

  /** `Settings._replace_references(setting)`. */
  method ReplaceReferences(cfg: Config, setting: Value, fuel: nat) returns (r: Result<Value, Error>)
    ensures r == Resolve(cfg, setting, fuel)
    decreases fuel, 1, setting
  {
    match setting
    case Dict(es) =>
      var branch := Find(es, PlatformKey(cfg.platform));
      if branch.Some? {
        r := ReplaceReferences(cfg, es[branch.value].value, fuel);
      } else {
        var rs := ReplaceInDict(cfg, es, fuel);
        r := if rs.Err? then Err(rs.error) else Ok(Dict(rs.value));
      }
    case List(items) =>
      var rs := ReplaceInList(cfg, items, fuel);
      r := if rs.Err? then Err(rs.error) else Ok(List(rs.value));
    case Str(s) =>
      var t := ReplaceInString(cfg, s, fuel);
      r := if t.Err? then Err(t.error) else Ok(Str(t.value));
    case _ =>
      r := Ok(setting);
  }

  /** The loop `for k, v in setting.items(): setting[k] = ...` over a dict without the platform key. */
  method ReplaceInDict(cfg: Config, es: seq<Entry>, fuel: nat) returns (r: Result<seq<Entry>, Error>)
    ensures r == ResolveEntries(cfg, es, fuel)
    decreases fuel, 1, es
  {
    var cur := es;
    var i := 0;
    assert cur[..0] == [] && es[0..] == es;
    PrependNil(ResolveEntries(cfg, es, fuel));
    while i < |cur|
      invariant 0 <= i <= |cur| == |es|
      invariant cur[i..] == es[i..]
      invariant ResolveEntries(cfg, es, fuel) == Prepend(cur[..i], ResolveEntries(cfg, es[i..], fuel))
    {
      assert es[i..][0] == es[i] && es[i..][1..] == es[i + 1..];
      var x := ReplaceReferences(cfg, es[i].value, fuel);
      if x.Err? {
        assert ResolveEntries(cfg, es[i..], fuel) == Err(x.error);
        return Err(x.error);
      }
      PrependTwice(cur[..i], [Entry(es[i].key, x.value)], ResolveEntries(cfg, es[i + 1..], fuel));
      ghost var done := cur[..i];
      cur := cur[i := Entry(cur[i].key, x.value)];
      assert cur[..i + 1] == done + [Entry(es[i].key, x.value)];
      i := i + 1;
    }
    assert cur[..i] == cur && es[i..] == [] && cur + [] == cur;
    r := Ok(cur);
  }

  /** The loop `for i, v in enumerate(setting): setting[i] = ...` over a list. */
  method ReplaceInList(cfg: Config, items: seq<Value>, fuel: nat) returns (r: Result<seq<Value>, Error>)
    ensures r == ResolveItems(cfg, items, fuel)
    decreases fuel, 1, items
  {
    var cur := items;
    var i := 0;
    assert cur[..0] == [] && items[0..] == items;
    PrependNil(ResolveItems(cfg, items, fuel));
    while i < |cur|
      invariant 0 <= i <= |cur| == |items|
      invariant cur[i..] == items[i..]
      invariant ResolveItems(cfg, items, fuel) == Prepend(cur[..i], ResolveItems(cfg, items[i..], fuel))
    {
      assert items[i..][0] == items[i] && items[i..][1..] == items[i + 1..];
      var x := ReplaceReferences(cfg, items[i], fuel);
      if x.Err? {
        assert ResolveItems(cfg, items[i..], fuel) == Err(x.error);
        return Err(x.error);
      }
      PrependTwice(cur[..i], [x.value], ResolveItems(cfg, items[i + 1..], fuel));
      ghost var done := cur[..i];
      cur := cur[i := x.value];
      assert cur[..i + 1] == done + [x.value];
      i := i + 1;
    }
    assert cur[..i] == cur && items[i..] == [] && cur + [] == cur;
    r := Ok(cur);
  }

  /** Environment expansion, then one `re.sub` per `${token}` found, rebinding the string each time. */
  method ReplaceInString(cfg: Config, s: string, fuel: nat) returns (r: Result<string, Error>)
    ensures r == Substitute(cfg, cfg.expandVars(s), FindTokens(cfg.expandVars(s)), fuel)
    decreases fuel, 0, 1
  {
    var text := cfg.expandVars(s);
    var tokens := FindTokens(text);
    var i := 0;
    while i < |tokens|
      invariant 0 <= i <= |tokens|
      invariant Substitute(cfg, cfg.expandVars(s), tokens, fuel) == Substitute(cfg, text, tokens[i..], fuel)
    {
      SubstituteAt(cfg, text, tokens, i, fuel);
      var next := ReplaceToken(cfg, text, tokens[i], fuel);
      if next.Err? {
        return next;
      }
      text := next.value;
      i := i + 1;
    }
    assert tokens[i..] == [];
    r := Ok(text);
  }

  /** One iteration: `re.sub` of every `${token}` by the text of `Settings.get(token)`, its backslashes doubled. */
  method ReplaceToken(cfg: Config, text: string, token: string, fuel: nat) returns (r: Result<string, Error>)
    ensures r == Substitute(cfg, text, [token], fuel)
    decreases fuel, 0, 0
  {
    if fuel == 0 {
      return Err(RecursionLimit);
    }
    var got := Get(cfg, token, fuel - 1);
    if got.Err? {
      SubstituteCons(cfg, text, [token], fuel);
      return Err(got.error);
    }
    // the replacement text has its backslashes doubled so that re.sub inserts it literally
    var shown := Show(cfg, got.value);
    ExpandEscape(shown, []);
    var replacement := Expand(Escape(shown), []).value;
    r := Ok(ReplaceAll(text, Reference(token), replacement));
    assert r == Substitute(cfg, text, [token], fuel) by {
      SubstituteCons(cfg, text, [token], fuel);
      assert [token][1..] == [];
    }
  }
}
