/**
  Identifier sanitizers: display names to map keys, resource names and directory
  names, and destination CIDR blocks to key fragments.
 */
module Sanitize {
  import opened Strings

  /** The character a key sanitizer maps `c` to, when it replaces the characters of `bad` by `_`. */
  function KeyChar(c: char, bad: seq<char>): char {
    if c in bad then '_' else LowerChar(c)
  }

  /**
    sanitize_key of generate_terraform_config.py, and sanitize_resource_name of
    generate_terraform.py (the same expression): hyphens and spaces become `_`,
    then the result is lower-cased. Colons are kept.
   */
  function SanitizeKey(name: string): (r: string)
    ensures |r| == |name|
    ensures forall i | 0 <= i < |name| :: r[i] == KeyChar(name[i], "- ")
    ensures '-' !in r && ' ' !in r
    ensures IsLowerCase(r)
  {
    Lower(Replace(Replace(name, '-', '_'), ' ', '_'))
  }

  /** sanitize_key of generate_import_commands.py: as `SanitizeKey`, and colons become `_` too. */
  function SanitizeKeyColon(name: string): (r: string)
    ensures |r| == |name|
    ensures forall i | 0 <= i < |name| :: r[i] == KeyChar(name[i], "- :")
    ensures '-' !in r && ' ' !in r && ':' !in r
    ensures IsLowerCase(r)
  {
    Lower(Replace(Replace(Replace(name, '-', '_'), ' ', '_'), ':', '_'))
  }

  /** Sanitizing a sanitized key changes nothing. */
  lemma SanitizeKeyIdempotent(name: string)
    ensures SanitizeKey(SanitizeKey(name)) == SanitizeKey(name)
    ensures SanitizeKeyColon(SanitizeKeyColon(name)) == SanitizeKeyColon(name)
  {
    var r := SanitizeKey(name);
    assert forall i | 0 <= i < |r| :: SanitizeKey(r)[i] == r[i];
    var q := SanitizeKeyColon(name);
    assert forall i | 0 <= i < |q| :: SanitizeKeyColon(q)[i] == q[i];
  }

  /** The keys `SanitizeKey` leaves unchanged are exactly the lower-case names without hyphens or spaces. */
  lemma SanitizeKeyFixedPoints(name: string)
    ensures SanitizeKey(name) == name <==> ('-' !in name && ' ' !in name && IsLowerCase(name))
  {
    if '-' !in name && ' ' !in name && IsLowerCase(name) {
      assert forall i | 0 <= i < |name| :: SanitizeKey(name)[i] == name[i];
    }
  }

  /** The two key sanitizers differ only on colons: the import-script key is the config key of the name with colons replaced. */
  lemma SanitizeKeyVariants(name: string)
    ensures SanitizeKeyColon(name) == SanitizeKey(Replace(name, ':', '_'))
    ensures SanitizeKeyColon(name) == SanitizeKey(name) <==> ':' !in name
  {
    var a := SanitizeKeyColon(name);
    var b := SanitizeKey(Replace(name, ':', '_'));
    assert forall i | 0 <= i < |name| :: a[i] == b[i];
    if ':' in name {
      var i :| 0 <= i < |name| && name[i] == ':';
      assert SanitizeKey(name)[i] == ':';
    } else {
      assert forall i | 0 <= i < |name| :: a[i] == SanitizeKey(name)[i];
    }
  }

  /** The literal prefix sanitize_dirname removes, compared case-insensitively. */
  const RoutePrefix: string := "tgw-rt-"

  /** `name` starts with `tgw-rt-` in any letter case (the regex `^tgw-rt-` with `re.IGNORECASE`). */
  predicate HasRoutePrefix(name: string) {
    |name| >= |RoutePrefix| && Lower(name[..|RoutePrefix|]) == RoutePrefix
  }

  /** The character sanitize_dirname maps `c` to. */
  function DirChar(c: char): char {
    if c == ' ' || c == '_' then '-' else LowerChar(c)
  }

  /**
    sanitize_dirname: removes one leading `tgw-rt-` (any case), then spaces and
    underscores become `-` and the result is lower-cased.
   */
  function SanitizeDirname(name: string): (r: string)
    ensures var rest := if HasRoutePrefix(name) then name[|RoutePrefix|..] else name;
            |r| == |rest| && forall i | 0 <= i < |rest| :: r[i] == DirChar(rest[i])
    ensures ' ' !in r && '_' !in r
    ensures IsLowerCase(r)
  {
    var rest := if HasRoutePrefix(name) then name[|RoutePrefix|..] else name;
    Lower(Replace(Replace(rest, ' ', '-'), '_', '-'))
  }

  /**
    The prefix is removed once, whatever its case, and the route-table part keeps no
    `rt-` of its own: the `rt-` of a route-table directory comes from its caller.
   */
  lemma SanitizeDirnameStripsPrefix()
    ensures SanitizeDirname("tgw-rt-production") == "production"
  {
    assert HasRoutePrefix("tgw-rt-production");
    assert "tgw-rt-production"[7..] == "production";
  }

  lemma SanitizeDirnameIgnoresCase()
    ensures SanitizeDirname("TGW-RT-Shared") == "shared"
  {
    assert HasRoutePrefix("TGW-RT-Shared");
    assert "TGW-RT-Shared"[7..] == "Shared";
  }

  lemma SanitizeDirnameSeparators()
    ensures SanitizeDirname("Core Network_A") == "core-network-a"
  {
    assert Lower("Core Network_A"[..7])[0] == 'c';
    assert !HasRoutePrefix("Core Network_A");
  }

  lemma SanitizeDirnameStripsOnce()
    ensures SanitizeDirname("tgw-rt-tgw-rt-x") == "tgw-rt-x"
  {
    assert HasRoutePrefix("tgw-rt-tgw-rt-x");
    assert "tgw-rt-tgw-rt-x"[7..] == "tgw-rt-x";
  }

  /** Because only one prefix is removed, sanitize_dirname is not idempotent. */
  lemma SanitizeDirnameNotIdempotent()
    ensures exists name :: SanitizeDirname(SanitizeDirname(name)) != SanitizeDirname(name)
  {
    SanitizeDirnameStripsOnce();
    assert HasRoutePrefix("tgw-rt-x");
    assert "tgw-rt-x"[7..] == "x";
    assert SanitizeDirname("tgw-rt-x") == "x";
    assert SanitizeDirname(SanitizeDirname("tgw-rt-tgw-rt-x")) != SanitizeDirname("tgw-rt-tgw-rt-x");
  }

  /** When no `tgw-rt-` prefix is left after one pass, a second pass changes nothing. */
  lemma SanitizeDirnameStable(name: string)
    requires !HasRoutePrefix(SanitizeDirname(name))
    ensures SanitizeDirname(SanitizeDirname(name)) == SanitizeDirname(name)
  {
    var r := SanitizeDirname(name);
    assert forall i | 0 <= i < |r| :: SanitizeDirname(r)[i] == r[i];
  }

  /** The character a destination sanitizer maps `c` to: the characters of `bad` become `_`, nothing is lower-cased. */
  function CidrChar(c: char, bad: seq<char>): char {
    if c in bad then '_' else c
  }

  /**
    The destination-to-key rewrite that replaces `/`, `.` and `:` by `_` (import-script
    route keys and VPC route keys).
   */
  function DestinationKey(destination: string): (r: string)
    ensures |r| == |destination|
    ensures forall i | 0 <= i < |destination| :: r[i] == CidrChar(destination[i], "/.:")
    ensures '/' !in r && '.' !in r && ':' !in r
  {
    Replace(Replace(Replace(destination, '/', '_'), '.', '_'), ':', '_')
  }

  /** The destination-to-key rewrite that replaces only `/` and `.` (TGW route keys); colons are kept. */
  function DestinationKeyKeepColon(destination: string): (r: string)
    ensures |r| == |destination|
    ensures forall i | 0 <= i < |destination| :: r[i] == CidrChar(destination[i], "/.")
    ensures '/' !in r && '.' !in r
    ensures ':' in r <==> ':' in destination
  {
    Replace(Replace(destination, '/', '_'), '.', '_')
  }

  /** The two destination rewrites agree exactly on destinations without a colon (IPv4 blocks). */
  lemma DestinationKeysAgree(destination: string)
    ensures DestinationKey(destination) == DestinationKeyKeepColon(destination) <==> ':' !in destination
  {
    if ':' !in destination {
      assert forall i | 0 <= i < |destination| ::
        DestinationKey(destination)[i] == DestinationKeyKeepColon(destination)[i];
    }
  }

  lemma DestinationKeyExamples()
    ensures DestinationKey("10.0.0.0/16") == "10_0_0_0_16"
    ensures DestinationKey("2001:db8::/32") == "2001_db8___32"
    ensures DestinationKeyKeepColon("2001:db8::/32") == "2001:db8::_32"
  {
  }
}
