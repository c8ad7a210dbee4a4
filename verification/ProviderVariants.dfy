/**
 Provider variants: how a node's use of a provider is rendered, and how it is hashed.

 A node resolves every placeholder of a provider's configuration: resource and selector placeholders to coordinates
 of its own, TF_VAR and context placeholders by their expression alone.  The block is rendered under that whole
 substitution map; the variant hash sees the resource and selector entries only.
 */
module ProviderVariants {
  import opened Basics
  import T = Tokens

  /** What the graph library reads from a placeholder's text. */
  datatype Expression = ResourceExpr(outputs: seq<string>) | SelectorExpr(outputs: seq<string>) | VarExpr(key: string) | ContextExpr(key: string)

  datatype Sub =
    | ResourceSub(coordinate: string, outputs: seq<string>)
    | SelectorSub(coordinates: seq<string>, outputs: seq<string>)
    | VarSub(key: string)
    | ContextSub(key: string)

  type Entries = seq<(string, T.Value)>

  /** What is the same for all nodes: lexical rules, the module name of a coordinate, the context lookup, and the providers' configurations in key order. */
  datatype Setup = Setup(
    isPlaceholder: string -> bool,
    find: string -> Option<(nat, nat)>,
    isIdentifier: string -> bool,
    parse: string -> Expression,
    moduleName: string -> string,
    lookup: string -> Option<string>,
    configuration: (string, string) -> Entries)

  /** A node's use of a provider, with the node's whole substitution map. */
  datatype Use = Use(providerType: string, id: string, subs: map<string, Sub>)

  // ---------------------------------------------------------------- rendering

  function Path(setup: Setup, coordinate: string, outputs: seq<string>): seq<string> {
    ["module", setup.moduleName(coordinate)] + outputs
  }

  function Paths(setup: Setup, coordinates: seq<string>, outputs: seq<string>): seq<seq<string>> {
    if coordinates == [] then [] else [Path(setup, coordinates[0], outputs)] + Paths(setup, coordinates[1..], outputs)
  }

  function TokenSub(setup: Setup, sub: Sub): T.Sub {
    match sub
    case ResourceSub(coordinate, outputs) => T.Resource(Some(Path(setup, coordinate, outputs)))
    case SelectorSub(coordinates, outputs) => T.Selector(Paths(setup, coordinates, outputs))
    case VarSub(key) => T.Var(key)
    case ContextSub(key) => T.Context(setup.lookup(key))
  }

  /** placeholdersSupportedInProvider */
  const Supported := {T.ContextKind, T.VarKind, T.ResourceKind}

  function EnvOf(setup: Setup, subs: map<string, Sub>): T.Env {
    T.Env(setup.isPlaceholder, setup.find, map k | k in subs :: TokenSub(setup, subs[k]), Supported, setup.isIdentifier)
  }

  datatype Item = Attribute(key: string, tokens: seq<T.Token>) | SubBlock(key: string, items: seq<Item>)

  predicate Digit(c: char) {
    '0' <= c <= '9'
  }

  /** Where the "[N]" at the end of a block key starts, if the character before it is there and is no backslash. */
  function SuffixStart(key: string): (r: Option<nat>)
    ensures r.Some? ==> 0 < r.value < |key|
  {
    if |key| < 4 || key[|key| - 1] != ']' then None
    else
      var d := DigitsStart(key, |key| - 1);
      if d == |key| - 1 || d < 2 || key[d - 1] != '[' || key[d - 2] == '\\' then None else Some(d - 1)
  }

  /** Where the run of digits that ends before end starts. */
  function DigitsStart(s: string, end: nat): (r: nat)
    requires end <= |s|
    ensures r <= end
  {
    if end > 0 && Digit(s[end - 1]) then DigitsStart(s, end - 1) else end
  }

  /** addProviderConfigurationMapToBlock */
  ghost function Rendered(env: T.Env, entries: Entries): Result<seq<Item>>
    requires T.Lexical(env)
    decreases entries
  {
    if entries == [] then Ok([])
    else
      var first := RenderedEntry(env, entries[0]);
      if first.Err? then Err(first.error)
      else
        var rest := Rendered(env, entries[1..]);
        if rest.Err? then rest else Ok([first.value] + rest.value)
  }

  ghost function RenderedEntry(env: T.Env, entry: (string, T.Value)): Result<Item>
    requires T.Lexical(env)
    decreases entry
  {
    var suffix := SuffixStart(entry.0);
    if suffix.Some? && entry.1.Object? then
      var inner := RenderedValue(env, entry.1);
      if inner.Err? then Err(inner.error) else Ok(SubBlock(entry.0[..suffix.value], inner.value))
    else
      var tokens := T.Convert(env, entry.1);
      if tokens.Err? then Err(tokens.error) else Ok(Attribute(entry.0, tokens.value))
  }

  ghost function RenderedValue(env: T.Env, v: T.Value): Result<seq<Item>>
    requires T.Lexical(env) && v.Object?
    decreases v
  {
    Rendered(env, v.entries)
  }

  /** addProviderConfigurationMapToBlock: a loop over the sorted keys, with recursion into sub-blocks. */
  method AddConfiguration(env: T.Env, entries: Entries) returns (r: Result<seq<Item>>)
    requires T.Lexical(env)
    ensures r == Rendered(env, entries)
    decreases entries
  {
    hide T.Lexical, T.Convert, SuffixStart;
    var items: seq<Item> := [];
    var k := 0;
    assert entries[0..] == entries;
    AfterTwice([], [], Rendered(env, entries));
    while k < |entries|
      invariant 0 <= k <= |entries| && Rendered(env, entries) == After(items, Rendered(env, entries[k..]))
    {
      assert entries[k..][0] == entries[k] && entries[k..][1..] == entries[k + 1..];
      var item := AddEntry(env, entries[k]);
      if item.Err? { return Err(item.error); }
      AfterTwice(items, [item.value], Rendered(env, entries[k + 1..]));
      items := items + [item.value];
      k := k + 1;
    }
    assert entries[k..] == [];
    assert items + [] == items;
    r := Ok(items);
  }

  method AddEntry(env: T.Env, entry: (string, T.Value)) returns (r: Result<Item>)
    requires T.Lexical(env)
    ensures r == RenderedEntry(env, entry)
    decreases entry
  {
    hide T.Lexical, T.Convert, Rendered;
    var suffix := SuffixStart(entry.0);
    if suffix.Some? && entry.1.Object? {
      var inner := AddValue(env, entry.1);
      r := if inner.Err? then Err(inner.error) else Ok(SubBlock(entry.0[..suffix.value], inner.value));
    } else {
      var tokens := T.ConvertToTokens(env, entry.1);
      r := if tokens.Err? then Err(tokens.error) else Ok(Attribute(entry.0, tokens.value));
    }
  }

  method AddValue(env: T.Env, v: T.Value) returns (r: Result<seq<Item>>)
    requires T.Lexical(env) && v.Object?
    ensures r == RenderedValue(env, v)
    decreases v
  {
    r := AddConfiguration(env, v.entries);
  }

  function After(items: seq<Item>, r: Result<seq<Item>>): Result<seq<Item>> {
    if r.Err? then r else Ok(items + r.value)
  }

  lemma AfterTwice(a: seq<Item>, b: seq<Item>, r: Result<seq<Item>>)
    ensures After([], r) == r && After(a, After(b, r)) == After(a + b, r)
  {
    if r.Ok? { assert [] + r.value == r.value && a + (b + r.value) == a + b + r.value; }
  }

  ghost predicate Lexical(setup: Setup) {
    T.Lexical(EnvOf(setup, map[]))
  }

  lemma LexicalUnder(setup: Setup, subs: map<string, Sub>)
    requires Lexical(setup)
    ensures T.Lexical(EnvOf(setup, subs))
  {
    var env, env' := EnvOf(setup, map[]), EnvOf(setup, subs);
    forall s ensures T.FindsLeftmost(env', s) { assert T.FindsLeftmost(env, s); }
  }

  /** The block body that this very use renders. */
  ghost function Body(setup: Setup, u: Use): Result<seq<Item>>
    requires Lexical(setup)
  {
    LexicalUnder(setup, u.subs);
    Rendered(EnvOf(setup, u.subs), setup.configuration(u.providerType, u.id))
  }

  // ---------------------------------------------------------------- the substitution map of a node

  /** IterPlaceholders: the placeholder texts in a value. */
  ghost function PlaceholdersIn(setup: Setup, v: T.Value): set<string>
    requires Lexical(setup)
    decreases v, 0
  {
    match v
    case Str(s) => (set text | text in T.Placeholders(T.Segments(EnvOf(setup, map[]), s)))
    case List(items) => PlaceholdersInItems(setup, items)
    case Object(entries) => PlaceholdersInEntries(setup, entries)
    case _ => {}
  }

  ghost function PlaceholdersInItems(setup: Setup, items: seq<T.Value>): set<string>
    requires Lexical(setup)
    decreases items
  {
    if items == [] then {} else PlaceholdersIn(setup, items[0]) + PlaceholdersInItems(setup, items[1..])
  }

  ghost function PlaceholdersInEntry(setup: Setup, entry: (string, T.Value)): set<string>
    requires Lexical(setup)
    decreases entry
  {
    PlaceholdersIn(setup, entry.1)
  }

  ghost function PlaceholdersInEntries(setup: Setup, entries: Entries): set<string>
    requires Lexical(setup)
    decreases entries
  {
    if entries == [] then {} else PlaceholdersInEntry(setup, entries[0]) + PlaceholdersInEntries(setup, entries[1..])
  }

  /** The substitution is one that this expression can resolve to: only coordinates are the node's own. */
  predicate Instance(e: Expression, sub: Sub) {
    match e
    case ResourceExpr(outputs) => sub.ResourceSub? && sub.outputs == outputs
    case SelectorExpr(outputs) => sub.SelectorSub? && sub.outputs == outputs
    case VarExpr(key) => sub == VarSub(key)
    case ContextExpr(key) => sub == ContextSub(key)
  }

  /** AddProviderMappingToNodes: the placeholders of the configuration, each resolved for the node. */
  ghost predicate Resolved(setup: Setup, u: Use)
    requires Lexical(setup)
  {
    && u.subs.Keys == PlaceholdersInEntries(setup, setup.configuration(u.providerType, u.id))
    && forall k :: k in u.subs ==> Instance(setup.parse(k), u.subs[k])
  }

  // ---------------------------------------------------------------- the hashed part

  datatype Match = One(coordinate: string) | Many(coordinates: seq<string>)

  /** What the variant hash is computed from. */
  datatype Variant = Variant(providerType: string, id: string, matches: seq<(string, Match)>)

  predicate Leq(a: string, b: string) {
    a == [] || (b != [] && (a[0] < b[0] || (a[0] == b[0] && Leq(a[1..], b[1..]))))
  }

  lemma {:induction false} LeqTotal(a: string, b: string)
    ensures Leq(a, b) || Leq(b, a)
    decreases |a|
  {
    if a != [] && b != [] && a[0] == b[0] { LeqTotal(a[1..], b[1..]); }
  }

  lemma {:induction false} LeqOn(a: string, b: string, c: string)
    requires Leq(a, b) && Leq(b, c)
    ensures Leq(a, c)
    decreases |a|
  {
    if a != [] && a[0] == b[0] == c[0] { LeqOn(a[1..], b[1..], c[1..]); }
  }

  ghost predicate IsLeast(s: set<string>, m: string) {
    m in s && forall x :: x in s ==> Leq(m, x)
  }

  lemma {:induction false} LeastExists(s: set<string>)
    requires s != {}
    ensures exists m :: IsLeast(s, m)
    decreases |s|
  {
    var x :| x in s;
    LeqTotal(x, x);
    if s == {x} {
      assert IsLeast(s, x);
    } else {
      var rest := s - {x};
      LeastExists(rest);
      var m :| IsLeast(rest, m);
      LeqTotal(x, m);
      if Leq(m, x) { assert IsLeast(s, m); }
      else {
        forall y | y in s ensures Leq(x, y) { if y != x { LeqOn(x, m, y); } }
        assert IsLeast(s, x);
      }
    }
  }

  /** slices.Sorted(maps.Keys(..)) */
  ghost function Sorted(s: set<string>): (r: seq<string>)
    ensures forall k :: k in r <==> k in s
    decreases |s|
  {
    if s == {} then []
    else
      LeastExists(s);
      var m :| IsLeast(s, m);
      [m] + Sorted(s - {m})
  }

  function MatchOf(sub: Sub): Option<Match> {
    match sub
    case ResourceSub(coordinate, _) => Some(One(coordinate))
    case SelectorSub(coordinates, _) => Some(Many(coordinates))
    case _ => None
  }

  function Matches(subs: map<string, Sub>, keys: seq<string>): seq<(string, Match)>
    requires forall k :: k in keys ==> k in subs
  {
    if keys == [] then []
    else
      var m := MatchOf(subs[keys[0]]);
      (if m.Some? then [(keys[0], m.value)] else []) + Matches(subs, keys[1..])
  }

  ghost function VariantOf(u: Use): Variant {
    Variant(u.providerType, u.id, Matches(u.subs, Sorted(u.subs.Keys)))
  }

  lemma {:induction false} MatchesDecide(setup: Setup, subs: map<string, Sub>, subs': map<string, Sub>, keys: seq<string>)
    requires forall k :: k in keys ==> k in subs && k in subs' && Instance(setup.parse(k), subs[k]) && Instance(setup.parse(k), subs'[k])
    requires Matches(subs, keys) == Matches(subs', keys)
    ensures forall k :: k in keys ==> subs[k] == subs'[k]
    decreases |keys|
  {
    if keys != [] {
      var k := keys[0];
      var m, m' := MatchOf(subs[k]), MatchOf(subs'[k]);
      assert m.Some? <==> m'.Some?;
      if m.Some? {
        assert Matches(subs, keys)[0] == (k, m.value) && Matches(subs', keys)[0] == (k, m'.value);
        assert Matches(subs, keys)[1..] == Matches(subs, keys[1..]) && Matches(subs', keys)[1..] == Matches(subs', keys[1..]);
      } else {
        assert Matches(subs, keys) == Matches(subs, keys[1..]) && Matches(subs', keys) == Matches(subs', keys[1..]);
      }
      MatchesDecide(setup, subs, subs', keys[1..]);
    }
  }

  /**
   Rendering depends on a node's substitution map only through what is hashed: two uses with the same type, id and resource and selector
   matches have the same substitutions throughout, and render the same block, sub-blocks included.
   */
  lemma VariantDecidesBlock(setup: Setup, u: Use, w: Use)
    requires Lexical(setup) && Resolved(setup, u) && Resolved(setup, w) && VariantOf(u) == VariantOf(w)
    ensures u == w && Body(setup, u) == Body(setup, w)
  {
    hide PlaceholdersInEntries, Rendered, T.Lexical;
    assert u.subs.Keys == w.subs.Keys;
    MatchesDecide(setup, u.subs, w.subs, Sorted(u.subs.Keys));
  }
}
