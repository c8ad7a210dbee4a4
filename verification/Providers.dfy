/**
 Provider variants of the compiled Terraform: one provider block per variant hash.

 Every node, tombstones included, uses provider variants; nodes are visited in iteration order and
 their local references in sorted order.  The first use of a hash writes the provider block and its
 required_providers entry; every use refers to the local name "<type>-<id>-<first 8 of hash>" with
 underscores removed.  The hash is a parameter: hexadecimal text of at least eight characters.
 */
module Providers {
  import opened Basics
  import opened ProviderVariants
  import opened VariantDigest

  /** use: whose configuration and substitutions it was rendered from. body: what they render to, or the error that ends the compilation. */
  datatype Block = Block(name: string, hash: string, use: Use, body: Result<seq<Item>>)

  type Hash = Use -> string

  ghost predicate HexHash(hash: Hash) {
    forall v :: |hash(v)| >= 8 && '_' !in hash(v)
  }

  /** strings.ReplaceAll(s, "_", "") */
  function Strip(s: string): string {
    if s == [] then [] else (if s[0] == '_' then [] else [s[0]]) + Strip(s[1..])
  }

  function LocalName(hash: Hash, v: Use): string
    requires HexHash(hash)
  {
    Strip(v.providerType + "-" + v.id + "-" + hash(v)[..8])
  }

  // ---------------------------------------------------------------- the blocks

  predicate HasHash(blocks: seq<Block>, h: string) {
    exists k :: 0 <= k < |blocks| && blocks[k].hash == h
  }

  /** One block per distinct hash, rendered from its first use. */
  ghost function Blocks(setup: Setup, hash: Hash, uses: seq<Use>): seq<Block>
    requires HexHash(hash) && Lexical(setup)
  {
    if uses == [] then []
    else
      var v := uses[|uses| - 1];
      var earlier := Blocks(setup, hash, uses[..|uses| - 1]);
      if HasHash(earlier, hash(v)) then earlier else earlier + [Block(LocalName(hash, v), hash(v), v, Body(setup, v))]
  }

  /** required holds the required_providers names, entries the providers entries. */
  datatype Output = Output(blocks: seq<Block>, required: set<string>, entries: seq<string>)

  predicate Fails(blocks: seq<Block>) {
    exists k :: 0 <= k < |blocks| && blocks[k].body.Err?
  }

  /** The provider part of BuildTofuFromGraph. */
  method ConfigureProviders(setup: Setup, hash: Hash, uses: seq<Use>) returns (r: Result<Output>)
    requires HexHash(hash) && Lexical(setup)
    ensures r.Err? <==> Fails(Blocks(setup, hash, uses))
    ensures r.Ok? ==> r.value.blocks == Blocks(setup, hash, uses) && r.value.required == NamesOf(r.value.blocks)
    ensures r.Ok? ==> |r.value.entries| == |uses| && forall k :: 0 <= k < |uses| ==> r.value.entries[k] == LocalName(hash, uses[k])
  {
    hide Lexical, Rendered, LocalName;
    var blocks: seq<Block>, required: set<string>, entries: seq<string> := [], {}, [];
    var configured: set<string> := {};
    var k := 0;
    while k < |uses|
      invariant 0 <= k <= |uses| && blocks == Blocks(setup, hash, uses[..k]) && !Fails(blocks)
      invariant |entries| == k && forall j :: 0 <= j < k ==> entries[j] == LocalName(hash, uses[j])
      invariant forall h :: h in configured <==> HasHash(blocks, h)
      invariant required == NamesOf(blocks)
    {
      var u := uses[k];
      var variantHash, name := hash(u), LocalName(hash, u);
      assert uses[..k + 1][..k] == uses[..k];
      if variantHash !in configured {
        ghost var earlier := blocks;
        LexicalUnder(setup, u.subs);
        var body := AddConfiguration(EnvOf(setup, u.subs), setup.configuration(u.providerType, u.id));
        var b := Block(name, variantHash, u, body);
        blocks := blocks + [b];
        if body.Err? {
          assert Fails(blocks) by { assert blocks[|blocks| - 1] == b; }
          FailureStays(setup, hash, uses, k + 1);
          return Err(body.error);
        }
        required := required + {name};
        configured := configured + {variantHash};
        forall h ensures HasHash(blocks, h) <==> HasHash(earlier, h) || h == variantHash { BlockAppended(earlier, b, h); }
        NameAppended(earlier, b);
      }
      entries := entries + [name];
      k := k + 1;
    }
    assert uses[..|uses|] == uses;
    r := Ok(Output(blocks, required, entries));
  }

  /** Blocks are only appended. */
  lemma {:induction false} FailureStays(setup: Setup, hash: Hash, uses: seq<Use>, k: nat)
    requires HexHash(hash) && Lexical(setup) && k <= |uses| && Fails(Blocks(setup, hash, uses[..k]))
    ensures Fails(Blocks(setup, hash, uses))
    decreases |uses| - k
  {
    hide Lexical, LocalName, Body;
    if k == |uses| {
      assert uses[..k] == uses;
    } else {
      assert uses[..k + 1][..k] == uses[..k];
      var before, after := Blocks(setup, hash, uses[..k]), Blocks(setup, hash, uses[..k + 1]);
      var j :| 0 <= j < |before| && before[j].body.Err?;
      assert after[j] == before[j];
      FailureStays(setup, hash, uses, k + 1);
    }
  }

  function NamesOf(blocks: seq<Block>): set<string> {
    set k | 0 <= k < |blocks| :: blocks[k].name
  }

  lemma NameAppended(earlier: seq<Block>, b: Block)
    ensures NamesOf(earlier + [b]) == NamesOf(earlier) + {b.name}
  {
    var all := earlier + [b];
    assert all[|earlier|] == b;
    forall k | 0 <= k < |earlier| ensures earlier[k].name in NamesOf(all) { assert all[k] == earlier[k]; }
  }

  lemma BlockAppended(earlier: seq<Block>, b: Block, h: string)
    ensures HasHash(earlier + [b], h) <==> HasHash(earlier, h) || h == b.hash
  {
    var all := earlier + [b];
    if HasHash(earlier, h) { var k :| 0 <= k < |earlier| && earlier[k].hash == h; assert all[k].hash == h; }
    if h == b.hash { assert all[|earlier|].hash == h; }
  }

  /** Every used hash has exactly one block, and every block comes from a use. */
  lemma {:induction false} BlocksAre(setup: Setup, hash: Hash, uses: seq<Use>)
    requires HexHash(hash) && Lexical(setup)
    ensures var bs := Blocks(setup, hash, uses);
            && (forall k :: 0 <= k < |uses| ==> HasHash(bs, hash(uses[k])))
            && (forall j, k :: 0 <= j < k < |bs| ==> bs[j].hash != bs[k].hash)
            && (forall k :: 0 <= k < |bs| ==> FromUse(setup, hash, uses, bs[k]))
    decreases |uses|
  {
    hide Body, Lexical;
    if uses != [] {
      hide LocalName;
      var n := |uses| - 1;
      BlocksAre(setup, hash, uses[..n]);
      forall k | 0 <= k < |uses| ensures HasHash(Blocks(setup, hash, uses), hash(uses[k])) {
        assert k < n ==> uses[..n][k] == uses[k];
        HashesOneMore(setup, hash, uses, n, k);
      }
      var bs := Blocks(setup, hash, uses);
      assert uses == uses[..n] + [uses[n]];
      forall k | 0 <= k < |bs| ensures FromUse(setup, hash, uses, bs[k]) { UsesOneMore(setup, hash, uses[..n], uses[n], bs[k]); }
      hide FromUse;
      DistinctOneMore(Blocks(setup, hash, uses[..n]), Block(LocalName(hash, uses[n]), hash(uses[n]), uses[n], Body(setup, uses[n])));
    }
  }

  lemma HashesOneMore(setup: Setup, hash: Hash, uses: seq<Use>, n: nat, k: nat)
    requires HexHash(hash) && Lexical(setup) && |uses| == n + 1 && k <= n
    requires k < n ==> HasHash(Blocks(setup, hash, uses[..n]), hash(uses[k]))
    ensures HasHash(Blocks(setup, hash, uses), hash(uses[k]))
  {
    hide LocalName, HexHash, HasHash;
    var earlier, v := Blocks(setup, hash, uses[..n]), uses[n];
    BlockAppended(earlier, Block(LocalName(hash, v), hash(v), v, Body(setup, v)), hash(uses[k]));
  }

  lemma UsesOneMore(setup: Setup, hash: Hash, front: seq<Use>, v: Use, b: Block)
    requires HexHash(hash) && Lexical(setup)
    ensures FromUse(setup, hash, front, b) || IsBlockOf(setup, hash, v, b) ==> FromUse(setup, hash, front + [v], b)
  {
    hide IsBlockOf;
    var uses := front + [v];
    if FromUse(setup, hash, front, b) {
      var i :| 0 <= i < |front| && IsBlockOf(setup, hash, front[i], b);
      assert uses[i] == front[i];
    }
    assert uses[|front|] == v;
  }

  lemma DistinctOneMore(earlier: seq<Block>, b: Block)
    requires forall j, k :: 0 <= j < k < |earlier| ==> earlier[j].hash != earlier[k].hash
    ensures !HasHash(earlier, b.hash) ==> var bs := earlier + [b]; forall j, k :: 0 <= j < k < |bs| ==> bs[j].hash != bs[k].hash
  {
  }

  ghost predicate IsBlockOf(setup: Setup, hash: Hash, v: Use, b: Block)
    requires HexHash(hash) && Lexical(setup)
  {
    b == Block(LocalName(hash, v), hash(v), v, Body(setup, v))
  }

  ghost predicate FromUse(setup: Setup, hash: Hash, uses: seq<Use>, b: Block)
    requires HexHash(hash) && Lexical(setup)
  {
    exists i :: 0 <= i < |uses| && IsBlockOf(setup, hash, uses[i], b)
  }

  // ---------------------------------------------------------------- exactly one block per entry

  /** The name is that of exactly one block, and that block was rendered from this very provider and these very substitutions. */
  ghost predicate ResolvesTo(blocks: seq<Block>, name: string, u: Use, k: nat) {
    && k < |blocks| && blocks[k].name == name && blocks[k].use == u
    && forall j :: 0 <= j < |blocks| && blocks[j].name == name ==> j == k
  }

  ghost predicate EntryResolved(setup: Setup, hash: Hash, uses: seq<Use>, u: Use)
    requires HexHash(hash) && Lexical(setup)
  {
    exists k: nat :: ResolvesTo(Blocks(setup, hash, uses), LocalName(hash, u), u, k)
  }

  ghost predicate AllResolved(setup: Setup, hash: Hash, uses: seq<Use>)
    requires HexHash(hash) && Lexical(setup)
  {
    forall k :: 0 <= k < |uses| ==> EntryResolved(setup, hash, uses, uses[k])
  }

  /** Neither a hash nor a local name belongs to two different uses. */
  ghost predicate TellsApart(hash: Hash, uses: seq<Use>)
    requires HexHash(hash)
  {
    forall i, j :: 0 <= i < |uses| && 0 <= j < |uses| && (hash(uses[i]) == hash(uses[j]) || LocalName(hash, uses[i]) == LocalName(hash, uses[j])) ==>
      uses[i] == uses[j]
  }

  /** Every providers entry has exactly one provider block, its own, if and only if the hashes and the local names tell the uses apart. */
  lemma EntriesResolveIff(setup: Setup, hash: Hash, uses: seq<Use>)
    requires HexHash(hash) && Lexical(setup)
    ensures AllResolved(setup, hash, uses) <==> TellsApart(hash, uses)
  {
    hide Lexical, Body, Blocks, LocalName;
    if TellsApart(hash, uses) {
      forall k | 0 <= k < |uses| ensures EntryResolved(setup, hash, uses, uses[k]) { EntryResolves(setup, hash, uses, k); }
    }
    if AllResolved(setup, hash, uses) {
      forall i, j | 0 <= i < |uses| && 0 <= j < |uses| && (hash(uses[i]) == hash(uses[j]) || LocalName(hash, uses[i]) == LocalName(hash, uses[j]))
        ensures uses[i] == uses[j]
      {
        SameBlock(setup, hash, uses, i, j);
      }
    }
  }

  lemma EntryResolves(setup: Setup, hash: Hash, uses: seq<Use>, k: nat)
    requires HexHash(hash) && Lexical(setup) && TellsApart(hash, uses) && k < |uses|
    ensures EntryResolved(setup, hash, uses, uses[k])
  {
    hide Lexical, Body, Blocks, LocalName;
    BlocksAre(setup, hash, uses);
    var bs := Blocks(setup, hash, uses);
    assert HasHash(bs, hash(uses[k]));
    var b :| 0 <= b < |bs| && bs[b].hash == hash(uses[k]);
    forall j | 0 <= j < |bs| ensures bs[j].name == LocalName(hash, uses[k]) <==> j == b ensures j == b ==> bs[j].use == uses[k] {
      assert FromUse(setup, hash, uses, bs[j]);
      var i :| 0 <= i < |uses| && IsBlockOf(setup, hash, uses[i], bs[j]);
      assert (hash(uses[i]) == hash(uses[k]) || LocalName(hash, uses[i]) == LocalName(hash, uses[k])) ==> uses[i] == uses[k];
      assert j != b ==> bs[j].hash != bs[b].hash;
    }
    assert ResolvesTo(bs, LocalName(hash, uses[k]), uses[k], b);
  }

  lemma SameBlock(setup: Setup, hash: Hash, uses: seq<Use>, i: nat, j: nat)
    requires HexHash(hash) && Lexical(setup) && i < |uses| && j < |uses|
    requires EntryResolved(setup, hash, uses, uses[i]) && EntryResolved(setup, hash, uses, uses[j])
    requires hash(uses[i]) == hash(uses[j]) || LocalName(hash, uses[i]) == LocalName(hash, uses[j])
    ensures uses[i] == uses[j]
  {
    hide Lexical, Body, Blocks, LocalName;
    BlocksAre(setup, hash, uses);
    var bs := Blocks(setup, hash, uses);
    var a: nat :| ResolvesTo(bs, LocalName(hash, uses[i]), uses[i], a);
    var b: nat :| ResolvesTo(bs, LocalName(hash, uses[j]), uses[j], b);
    BlockHash(setup, hash, uses, a);
    BlockHash(setup, hash, uses, b);
  }

  /** A block has the hash, the name and the body of its use. */
  lemma BlockHash(setup: Setup, hash: Hash, uses: seq<Use>, k: nat)
    requires HexHash(hash) && Lexical(setup) && k < |Blocks(setup, hash, uses)|
    ensures var b := Blocks(setup, hash, uses)[k]; IsBlockOf(setup, hash, b.use, b) && b.hash == hash(b.use) && b.body == Body(setup, b.use)
  {
    hide Lexical, Body, Blocks, LocalName;
    BlocksAre(setup, hash, uses);
    var b := Blocks(setup, hash, uses)[k];
    assert FromUse(setup, hash, uses, b);
    var i :| 0 <= i < |uses| && IsBlockOf(setup, hash, uses[i], b);
  }

  // ---------------------------------------------------------------- what the hash must promise

  lemma {:induction false} StripConcat(a: string, b: string)
    ensures Strip(a + b) == Strip(a) + Strip(b)
    decreases |a|
  {
    if a == [] { assert a + b == b; }
    else { assert (a + b)[1..] == a[1..] + b; StripConcat(a[1..], b); }
  }

  lemma {:induction false} StripClean(s: string)
    requires '_' !in s
    ensures Strip(s) == s
    decreases |s|
  {
    if s != [] { StripClean(s[1..]); }
  }

  /** A local name ends with the first eight characters of its hash. */
  lemma NameEndsWithHash(hash: Hash, v: Use)
    requires HexHash(hash)
    ensures var n := LocalName(hash, v); |n| >= 8 && n[|n| - 8..] == hash(v)[..8]
  {
    var h := hash(v)[..8];
    StripConcat(v.providerType + "-" + v.id + "-", h);
    assert '_' !in h;
    StripClean(h);
  }

  /** Different hashes differ in their first eight characters. */
  ghost predicate PrefixFree(hash: Hash, uses: seq<Use>)
    requires HexHash(hash)
  {
    forall i, j :: 0 <= i < |uses| && 0 <= j < |uses| && hash(uses[i])[..8] == hash(uses[j])[..8] ==> hash(uses[i]) == hash(uses[j])
  }

  /** The hash is a digest without collisions of the variant's text. */
  ghost predicate Digests(hash: Hash) {
    forall u, w :: hash(u) == hash(w) <==> Encoded(VariantOf(u)) == Encoded(VariantOf(w))
  }

  /** Every use resolves its provider's configuration, with texts of the usual form. */
  ghost predicate WellUsed(setup: Setup, u: Use)
    requires Lexical(setup)
  {
    Resolved(setup, u) && VariantOk(VariantOf(u))
  }

  lemma {:induction false} MatchesAre(subs: map<string, Sub>, keys: seq<string>, i: nat)
    requires (forall k :: k in keys ==> k in subs) && i < |Matches(subs, keys)|
    ensures var m := Matches(subs, keys)[i]; m.0 in subs && MatchOf(subs[m.0]) == Some(m.1)
    decreases |keys|
  {
    var first := MatchOf(subs[keys[0]]);
    if first.None? { MatchesAre(subs, keys[1..], i); }
    else if i > 0 { MatchesAre(subs, keys[1..], i - 1); }
  }

  lemma KindOf(setup: Setup, u: Use, i: nat)
    requires Lexical(setup) && Resolved(setup, u) && i < |VariantOf(u).matches|
    ensures var m := VariantOf(u).matches[i]; m.1.One? <==> setup.parse(m.0).ResourceExpr?
  {
    hide PlaceholdersInEntries, Lexical;
    MatchesAre(u.subs, Sorted(u.subs.Keys), i);
    var k := VariantOf(u).matches[i].0;
    assert Instance(setup.parse(k), u.subs[k]);
  }

  /** One expression is a resource or a selector placeholder for every node. */
  lemma KindsFollowExpressions(setup: Setup, u: Use, w: Use)
    requires Lexical(setup) && Resolved(setup, u) && Resolved(setup, w)
    ensures SameKinds(VariantOf(u).matches, VariantOf(w).matches)
  {
    hide Resolved, Lexical, VariantOf;
    var ms, ms' := VariantOf(u).matches, VariantOf(w).matches;
    forall i, j | 0 <= i < |ms| && 0 <= j < |ms'| && ms[i].0 == ms'[j].0 ensures ms[i].1.One? <==> ms'[j].1.One? {
      KindOf(setup, u, i);
      KindOf(setup, w, j);
    }
  }

  /** Two uses share a hash, and so a block, if and only if they are the same, or have the same matches and overlapping type and id. */
  lemma SameHashIff(setup: Setup, hash: Hash, u: Use, w: Use)
    requires HexHash(hash) && Lexical(setup) && Digests(hash) && WellUsed(setup, u) && WellUsed(setup, w)
    ensures hash(u) == hash(w) <==> u == w || (VariantOf(u).matches == VariantOf(w).matches && Overlap(VariantOf(u), VariantOf(w)))
  {
    hide Lexical, Encoded, VariantOk, Resolved, VariantOf, Overlap, SameKinds;
    KindsFollowExpressions(setup, u, w);
    CollisionIff(VariantOf(u), VariantOf(w));
    if VariantOf(u) == VariantOf(w) { VariantDecidesBlock(setup, u, w); }
  }

  /** Two different uses collide: the same matches, and the type of one continues into the id of the other. */
  ghost predicate Collide(u: Use, w: Use) {
    u != w && VariantOf(u).matches == VariantOf(w).matches && Overlap(VariantOf(u), VariantOf(w))
  }

  /**
   Deduplication is sound exactly if no two uses collide: then, and only then, every providers entry, those of tombstones included, has
   exactly one block, rendered from this very use's provider and substitutions. Hashes are taken to differ in their first eight characters.
   */
  lemma DeduplicationIsSoundIff(setup: Setup, hash: Hash, uses: seq<Use>)
    requires HexHash(hash) && Lexical(setup) && Digests(hash) && PrefixFree(hash, uses)
    requires forall i :: 0 <= i < |uses| ==> WellUsed(setup, uses[i])
    ensures AllResolved(setup, hash, uses) <==> forall i, j :: 0 <= i < |uses| && 0 <= j < |uses| ==> !Collide(uses[i], uses[j])
  {
    hide Lexical, WellUsed, VariantOf, Overlap, Digests, AllResolved;
    EntriesResolveIff(setup, hash, uses);
    forall i, j | 0 <= i < |uses| && 0 <= j < |uses|
      ensures hash(uses[i]) == hash(uses[j]) <==> uses[i] == uses[j] || Collide(uses[i], uses[j])
      ensures LocalName(hash, uses[i]) == LocalName(hash, uses[j]) ==> hash(uses[i]) == hash(uses[j])
    {
      SameHashIff(setup, hash, uses[i], uses[j]);
      NameEndsWithHash(hash, uses[i]);
      NameEndsWithHash(hash, uses[j]);
      hide LocalName;
    }
    hide LocalName, Collide;
  }

  /** And the block of a resolved entry is what this use's own configuration renders to under its own substitutions. */
  lemma ResolvedBlockIsOwn(setup: Setup, hash: Hash, uses: seq<Use>, u: Use, k: nat)
    requires HexHash(hash) && Lexical(setup) && EntryResolved(setup, hash, uses, u)
    requires k < |Blocks(setup, hash, uses)| && Blocks(setup, hash, uses)[k].name == LocalName(hash, u)
    ensures Blocks(setup, hash, uses)[k].body == Body(setup, u)
  {
    hide Lexical, Body, Blocks, LocalName;
    BlockHash(setup, hash, uses, k);
    var j: nat :| ResolvesTo(Blocks(setup, hash, uses), LocalName(hash, u), u, j);
  }

  // ---------------------------------------------------------------- the missing separator

  /** Two providers that differ only in where the type ends share one block, and the second one's entry names no block. */
  lemma MissingSeparatorLosesBlock(setup: Setup, hash: Hash)
    requires HexHash(hash) && Lexical(setup) && Digests(hash)
    ensures var v, w := Use("a", "bc", map[]), Use("ab", "c", map[]);
            && LocalName(hash, v) != LocalName(hash, w)
            && forall k :: 0 <= k < |Blocks(setup, hash, [v, w])| ==> Blocks(setup, hash, [v, w])[k].name != LocalName(hash, w)
  {
    hide Lexical, Body;
    var v, w := Use("a", "bc", map[]), Use("ab", "c", map[]);
    assert v.subs.Keys == {};
    assert Encoded(VariantOf(v)) == "abc" == Encoded(VariantOf(w));
    assert hash(v) == hash(w);
    NameOf(hash, v, "a-bc-");
    NameOf(hash, w, "ab-c-");
    assert LocalName(hash, v)[1] == '-' && LocalName(hash, w)[1] == 'b';
    OneBlock(setup, hash, v);
    var one := Blocks(setup, hash, [v]);
    assert one[0].hash == hash(w);
    assert HasHash(one, hash(w));
    assert [v, w][..1] == [v];
    assert Blocks(setup, hash, [v, w]) == one;
  }

  lemma NameOf(hash: Hash, v: Use, start: string)
    requires HexHash(hash) && start == v.providerType + "-" + v.id + "-" && '_' !in start
    ensures LocalName(hash, v) == start + hash(v)[..8]
  {
    StripConcat(start, hash(v)[..8]);
    StripClean(start);
    StripClean(hash(v)[..8]);
  }

  lemma OneBlock(setup: Setup, hash: Hash, v: Use)
    requires HexHash(hash) && Lexical(setup)
    ensures Blocks(setup, hash, [v]) == [Block(LocalName(hash, v), hash(v), v, Body(setup, v))]
  {
    assert [v][..0] == [];
    assert Blocks(setup, hash, [v][..0]) == [];
  }

  /** Or both have one name as well: then the second provider's entry silently uses the first one's configuration. */
  lemma SharedNameTakesOtherProvider(setup: Setup, hash: Hash)
    requires HexHash(hash) && Lexical(setup) && Digests(hash)
    ensures var v, w := Use("a-", "b", map[]), Use("a", "-b", map[]);
            && LocalName(hash, v) == LocalName(hash, w) && !EntryResolved(setup, hash, [v, w], w)
            && Blocks(setup, hash, [v, w]) == [Block(LocalName(hash, w), hash(w), v, Body(setup, v))]
  {
    hide Lexical, Body;
    var v, w := Use("a-", "b", map[]), Use("a", "-b", map[]);
    assert v.subs.Keys == {};
    assert Encoded(VariantOf(v)) == "a-b" == Encoded(VariantOf(w));
    assert hash(v) == hash(w);
    NameOf(hash, v, "a--b-");
    NameOf(hash, w, "a--b-");
    OneBlock(setup, hash, v);
    var one := Blocks(setup, hash, [v]);
    assert one[0].hash == hash(w);
    assert HasHash(one, hash(w));
    assert [v, w][..1] == [v];
    assert Blocks(setup, hash, [v, w]) == one;
  }
}
