/** Cache-key derivation, from src/remote/cache/key_generator.rs.

    A `DefaultHasher` is fed the URL, the branch and the optional commit hash by
    successive `hash` calls and then finished into a `u64`, which is rendered in
    lower-case hexadecimal. The hash function itself is opaque: it is a
    parameter, a function of the sequence of items fed to the hasher. */
module CacheKey {
  import opened Wrappers

  newtype u64 = x: int | 0 <= x < 0x1_0000_0000_0000_0000

  /** The checkout method of a configuration. */
  datatype Method = Shallow | ShallowNoSparse | Partial

  /** The repository configuration of src/wire/models/repo_config.rs. */
  datatype RepositoryConfiguration = RepositoryConfiguration(
    url: string,
    branch: string,
    targetPath: string,
    filters: seq<string>,
    commitHash: Option<string>,
    mtd: Option<Method>)

  /** A hasher accumulates the items written to it; finishing applies the
      (opaque) hash function to the whole sequence. */
  class Hasher {
    var fed: seq<string>
    const hash: seq<string> -> u64

    constructor (hash: seq<string> -> u64)
      ensures fed == [] && this.hash == hash
    {
      this.fed := [];
      this.hash := hash;
    }

    method Write(item: string)
      modifies this
      ensures fed == old(fed) + [item]
    {
      fed := fed + [item];
    }

    method Finish() returns (h: u64)
      ensures h == hash(fed)
    {
      h := hash(fed);
    }
  }

  // ---------------------------------------------------------------- hex rendering

  function HexDigit(d: nat): (c: char)
    requires d < 16
    ensures ('0' <= c <= '9') || ('a' <= c <= 'f')
    ensures c == '0' <==> d == 0
  {
    if d < 10 then ('0' as int + d) as char else ('a' as int + d - 10) as char
  }

  predicate IsHexDigit(c: char) {
    ('0' <= c <= '9') || ('a' <= c <= 'f')
  }

  function HexValue(c: char): (d: nat)
    requires IsHexDigit(c)
    ensures d < 16
  {
    if c <= '9' then c as int - '0' as int else c as int - 'a' as int + 10
  }

  /** `format!("{:x}", n)`: lower-case hexadecimal digits, never empty, and no
      leading zero except for "0" itself. */
  function ToHex(n: nat): (r: string)
    ensures 1 <= |r|
    ensures forall i :: 0 <= i < |r| ==> IsHexDigit(r[i])
    ensures r[0] == '0' <==> n == 0
    ensures n == 0 ==> r == "0"
    decreases n
  {
    if n < 16 then [HexDigit(n)] else ToHex(n / 16) + [HexDigit(n % 16)]
  }

  /** Reads a string of hex digits back as a number. */
  function ParseHex(s: string): nat
    requires forall i :: 0 <= i < |s| ==> IsHexDigit(s[i])
    decreases |s|
  {
    if s == [] then 0 else ParseHex(s[..|s| - 1]) * 16 + HexValue(s[|s| - 1])
  }

  lemma HexDigitValue(d: nat)
    requires d < 16
    ensures HexValue(HexDigit(d)) == d
  {
  }

  /** The rendering loses nothing: parsing it gives the number back. */
  lemma {:induction false} ParseToHex(n: nat)
    ensures ParseHex(ToHex(n)) == n
    decreases n
  {
    var r := ToHex(n);
    if n < 16 {
      HexDigitValue(n);
      assert r[..0] == [];
    } else {
      ParseToHex(n / 16);
      HexDigitValue(n % 16);
      assert r[..|r| - 1] == ToHex(n / 16);
    }
  }

  function Pow16(k: nat): nat {
    if k == 0 then 1 else 16 * Pow16(k - 1)
  }

  lemma {:induction false} HexLength(n: nat, k: nat)
    requires 1 <= k && n < Pow16(k)
    ensures |ToHex(n)| <= k
    decreases k
  {
    if n >= 16 {
      HexLength(n / 16, k - 1);
    }
  }

  lemma {:induction false} Pow16Add(a: nat, b: nat)
    ensures Pow16(a + b) == Pow16(a) * Pow16(b)
    decreases a
  {
    if a > 0 {
      Pow16Add(a - 1, b);
    }
  }

  /** A rendered `u64` has between 1 and 16 characters. */
  lemma U64HexLength(h: u64)
    ensures 1 <= |ToHex(h as nat)| <= 16
  {
    assert Pow16(2) == 256;
    Pow16Add(2, 2);
    Pow16Add(4, 4);
    Pow16Add(8, 8);
    assert Pow16(16) == 0x1_0000_0000_0000_0000;
    HexLength(h as nat, 16);
  }

  // ---------------------------------------------------------------- the keys

  /** The items `generate_key` feeds to the hasher, in order. */
  function KeyFeed(url: string, branch: string, commitHash: Option<string>): seq<string> {
    [url, branch] + (if commitHash.Some? then [commitHash.value] else [])
  }

  /** The key of a configuration, given the hash function. */
  function KeyOf(config: RepositoryConfiguration, hash: seq<string> -> u64): string {
    ToHex(hash(KeyFeed(config.url, config.branch, config.commitHash)) as nat)
  }

  /** `generate_key`. */
  method GenerateKey(config: RepositoryConfiguration, hash: seq<string> -> u64) returns (key: string)
    ensures key == ToHex(hash(KeyFeed(config.url, config.branch, config.commitHash)) as nat)
    ensures 1 <= |key| <= 16
  {
    var hasher := new Hasher(hash);
    hasher.Write(config.url);
    hasher.Write(config.branch);
    if config.commitHash.Some? {
      hasher.Write(config.commitHash.value);
    }
    assert hasher.fed == KeyFeed(config.url, config.branch, config.commitHash);
    var h := hasher.Finish();
    U64HexLength(h);
    key := ToHex(h as nat);
  }

  /** `generate_url_branch_key`. */
  method GenerateUrlBranchKey(url: string, branch: string, hash: seq<string> -> u64) returns (key: string)
    ensures key == ToHex(hash([url, branch]) as nat)
    ensures 1 <= |key| <= 16
  {
    var hasher := new Hasher(hash);
    hasher.Write(url);
    hasher.Write(branch);
    assert hasher.fed == [url, branch];
    var h := hasher.Finish();
    U64HexLength(h);
    key := ToHex(h as nat);
  }

  /** Only `url`, `branch` and `commitHash` matter: configurations differing in
      `targetPath`, `filters` or `mtd` share a key, whatever the hash function. */
  lemma KeyIgnoresOtherFields(c1: RepositoryConfiguration, c2: RepositoryConfiguration, hash: seq<string> -> u64)
    requires c1.url == c2.url && c1.branch == c2.branch && c1.commitHash == c2.commitHash
    ensures KeyOf(c1, hash) == KeyOf(c2, hash)
  {
  }

  /** Without a pinned commit the two generators feed the same items, so they
      agree. */
  lemma UnpinnedKeyIsUrlBranchKey(c: RepositoryConfiguration, hash: seq<string> -> u64)
    requires c.commitHash.None?
    ensures KeyOf(c, hash) == ToHex(hash([c.url, c.branch]) as nat)
  {
    assert KeyFeed(c.url, c.branch, c.commitHash) == [c.url, c.branch];
  }

  /** The feed determines the three key fields: two configurations feed the same
      sequence exactly when their url, branch and commit agree (a pinned and an
      unpinned configuration never feed the same sequence). */
  lemma KeyFeedInjective(u1: string, b1: string, c1: Option<string>, u2: string, b2: string, c2: Option<string>)
    ensures KeyFeed(u1, b1, c1) == KeyFeed(u2, b2, c2) <==> u1 == u2 && b1 == b2 && c1 == c2
  {
    var f1, f2 := KeyFeed(u1, b1, c1), KeyFeed(u2, b2, c2);
    if f1 == f2 {
      assert f1[0] == f2[0] && f1[1] == f2[1];
      assert |f1| == |f2|;
      if c1.Some? {
        assert f1[2] == f2[2];
      }
    }
  }
}
