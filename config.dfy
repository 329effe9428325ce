/**
 * The backend's database-URL derivation (`Settings.sqlalchemy_database_url`
 * in backend/app/config.py). Settings are an immutable record; the property
 * is a single conditional over it:
 *   - an explicit, non-empty DATABASE_URL that starts with `postgresql://` has
 *     every `postgresql://` replaced by the psycopg2 driver scheme;
 *   - any other non-empty DATABASE_URL is returned as it is;
 *   - without one (None or ""), the URL is assembled from the PG* settings.
 */
module Config {
  import opened Wrappers
  import Decimal

  const PostgresScheme := "postgresql://"
  const Psycopg2Scheme := "postgresql+psycopg2://"

  /** Field defaults of PGHOST and PGPORT. */
  const DefaultHost := "localhost"
  const DefaultPort := 5432

  /** The settings the URL derivation reads. */
  datatype Settings = Settings(
    pgUser: string,
    pgPassword: string,
    pgDatabase: string,
    pgHost: string,
    pgPort: int,
    databaseUrl: Option<string>)

  /** Settings as loaded when only the required PG* variables are given. */
  function WithDefaults(user: string, password: string, database: string): (s: Settings)
    ensures s.pgHost == DefaultHost && s.pgPort == DefaultPort && s.databaseUrl == None
  {
    Settings(user, password, database, DefaultHost, DefaultPort, None)
  }

  predicate StartsWith(s: string, prefix: string) {
    |prefix| <= |s| && s[..|prefix|] == prefix
  }

  predicate OccursAt(s: string, p: string, i: nat) {
    i + |p| <= |s| && s[i..i + |p|] == p
  }

  ghost predicate Contains(s: string, p: string) {
    exists i: nat :: OccursAt(s, p, i)
  }

  /**
   * Python's `s.replace(pattern, replacement)`: occurrences are found left to right and
   * do not overlap; the text of a replacement is not scanned again.
   */
  function ReplaceAll(s: string, pattern: string, replacement: string): (r: string)
    requires |pattern| > 0
    ensures !Contains(s, pattern) ==> r == s
    decreases |s|
  {
    if |s| < |pattern| then s
    else if StartsWith(s, pattern) then
      assert OccursAt(s, pattern, 0);
      replacement + ReplaceAll(s[|pattern|..], pattern, replacement)
    else
      assert Contains(s[1..], pattern) ==> Contains(s, pattern) by {
        if Contains(s[1..], pattern) {
          var i: nat :| OccursAt(s[1..], pattern, i);
          assert s[i + 1..i + 1 + |pattern|] == s[1..][i..i + |pattern|];
          assert OccursAt(s, pattern, i + 1);
        }
      }
      [s[0]] + ReplaceAll(s[1..], pattern, replacement)
  }

  /** Python truthiness of `self.DATABASE_URL`: None and "" are false. */
  predicate HasExplicitUrl(s: Settings) {
    s.databaseUrl.Some? && s.databaseUrl.value != ""
  }

  /** The f-string of config.py line 46. The port is written by `str(int)`. */
  function ConstructedUrl(s: Settings): (u: string)
    ensures StartsWith(u, Psycopg2Scheme) && !StartsWith(u, PostgresScheme)
  {
    assert Psycopg2Scheme[10] != PostgresScheme[10];
    Psycopg2Scheme + s.pgUser + ":" + s.pgPassword + "@" + s.pgHost + ":"
      + Decimal.IntToDecimal(s.pgPort) + "/" + s.pgDatabase
  }

  /** `Settings.sqlalchemy_database_url`. */
  function SqlalchemyDatabaseUrl(s: Settings): (r: string)
    ensures r != ""
    ensures HasExplicitUrl(s) && !StartsWith(s.databaseUrl.value, PostgresScheme) ==> r == s.databaseUrl.value
    ensures !HasExplicitUrl(s) ==> StartsWith(r, Psycopg2Scheme)
  {
    if HasExplicitUrl(s) then
      if StartsWith(s.databaseUrl.value, PostgresScheme)
      then ReplaceAll(s.databaseUrl.value, PostgresScheme, Psycopg2Scheme)
      else s.databaseUrl.value
    else ConstructedUrl(s)
  }

  // ---------------------------------------------------------------------------
  // The rewrite branch

  /** A URL that starts with the driver scheme does not start with the plain scheme. */
  lemma Psycopg2IsNotPostgres(u: string)
    requires StartsWith(u, Psycopg2Scheme)
    ensures !StartsWith(u, PostgresScheme)
  {
    assert u[10] == Psycopg2Scheme[10] == '+';
    assert PostgresScheme[10] == ':';
  }

  /** The driver scheme has a `p` only at positions 0, 11 and 16. */
  lemma DriverSchemeLetterP(k: nat)
    requires k < |Psycopg2Scheme| && Psycopg2Scheme[k] == 'p'
    ensures k == 0 || k == 11 || k == 16
  {
    var d := Psycopg2Scheme;
    assert d[1] != 'p' && d[2] != 'p' && d[3] != 'p' && d[4] != 'p' && d[5] != 'p' && d[6] != 'p' && d[7] != 'p';
    assert d[8] != 'p' && d[9] != 'p' && d[10] != 'p' && d[12] != 'p' && d[13] != 'p' && d[14] != 'p';
    assert d[15] != 'p' && d[17] != 'p' && d[18] != 'p' && d[19] != 'p' && d[20] != 'p' && d[21] != 'p';
  }

  /** A character that differs from the pattern's rules out an occurrence there. */
  lemma MismatchRulesOutOccurrence(s: string, p: string, i: nat, k: nat)
    requires k < |p| && i + k < |s| && s[i + k] != p[k]
    ensures !OccursAt(s, p, i)
  {
    if i + |p| <= |s| {
      assert s[i..i + |p|][k] == s[i + k];
    }
  }

  /**
   * No `postgresql://` begins inside a replacement text, whatever follows it:
   * none of the three `p`s of the driver scheme is followed by the rest of
   * the plain scheme.
   */
  lemma NoSchemeInsideReplacement(x: string, i: nat)
    requires i < |Psycopg2Scheme|
    ensures !OccursAt(Psycopg2Scheme + x, PostgresScheme, i)
  {
    var r := Psycopg2Scheme + x;
    assert r[i] == Psycopg2Scheme[i];
    if r[i] != 'p' {
      MismatchRulesOutOccurrence(r, PostgresScheme, i, 0);
    } else {
      DriverSchemeLetterP(i);
      if i == 0 {
        assert r[10] == '+';
        MismatchRulesOutOccurrence(r, PostgresScheme, 0, 10);
      } else if i == 11 {
        assert r[12] == 's';
        MismatchRulesOutOccurrence(r, PostgresScheme, 11, 1);
      } else {
        assert r[17] == 'g';
        MismatchRulesOutOccurrence(r, PostgresScheme, 16, 1);
      }
    }
  }

  /**
   * After the rewrite, a prefix without any `p` can only have come from the
   * input itself: every replacement text starts with `p`.
   */
  lemma {:induction false} RewritePreservesPrefix(t: string, p: string)
    requires forall k :: 0 <= k < |p| ==> p[k] != 'p'
    ensures StartsWith(ReplaceAll(t, PostgresScheme, Psycopg2Scheme), p) ==> StartsWith(t, p)
    decreases |t|
  {
    var r := ReplaceAll(t, PostgresScheme, Psycopg2Scheme);
    if p == [] || |t| < |PostgresScheme| {
    } else if StartsWith(t, PostgresScheme) {
      assert r[0] == 'p';
      assert |p| <= |r| ==> r[..|p|][0] == r[0];
    } else {
      var rest := ReplaceAll(t[1..], PostgresScheme, Psycopg2Scheme);
      assert r == [t[0]] + rest;
      assert StartsWith(r, p) ==> rest[..|p| - 1] == r[..|p|][1..];
      RewritePreservesPrefix(t[1..], p[1..]);
      assert StartsWith(t[1..], p[1..]) ==> t[..|p|] == [t[0]] + t[1..][..|p| - 1];
      assert StartsWith(r, p) ==> r[..|p|] == [t[0]] + r[..|p|][1..];
    }
  }

  /** A replacement text followed by scheme-free text is scheme-free. */
  lemma NoSchemeAfterReplacement(rest: string)
    requires !Contains(rest, PostgresScheme)
    ensures !Contains(Psycopg2Scheme + rest, PostgresScheme)
  {
    var r := Psycopg2Scheme + rest;
    var m, n := |Psycopg2Scheme|, |PostgresScheme|;
    forall i: nat ensures !OccursAt(r, PostgresScheme, i) {
      if i < m {
        NoSchemeInsideReplacement(rest, i);
      } else {
        assert i + n <= |r| ==> r[i..i + n] == rest[i - m..i - m + n];
        assert !OccursAt(rest, PostgresScheme, i - m);
      }
    }
  }

  /** Prepending one character moves every occurrence one place to the right. */
  lemma NoSchemeShifted(c: char, rest: string, i: nat)
    requires i > 0 && !OccursAt(rest, PostgresScheme, i - 1)
    ensures !OccursAt([c] + rest, PostgresScheme, i)
  {
    var n := |PostgresScheme|;
    assert i + n <= |[c] + rest| ==> ([c] + rest)[i..i + n] == rest[i - 1..i - 1 + n];
  }

  /** The kept character cannot begin a scheme in front of the rewritten remainder. */
  lemma NoSchemeAtKeptChar(s: string)
    requires |s| >= |PostgresScheme| && !StartsWith(s, PostgresScheme)
    ensures !OccursAt([s[0]] + ReplaceAll(s[1..], PostgresScheme, Psycopg2Scheme), PostgresScheme, 0)
  {
    var rest := ReplaceAll(s[1..], PostgresScheme, Psycopg2Scheme);
    var r := [s[0]] + rest;
    var n := |PostgresScheme|;
    var tail := PostgresScheme[1..];
    RewritePreservesPrefix(s[1..], tail);
    assert n <= |r| ==> rest[..|tail|] == r[..n][1..];
    assert s[..n] == [s[0]] + s[1..][..|tail|];
  }

  /**
   * A character the scan kept (no scheme starts at it) followed by the
   * rewritten remainder is scheme-free.
   */
  lemma NoSchemeAfterKeptChar(s: string)
    requires |s| >= |PostgresScheme| && !StartsWith(s, PostgresScheme)
    requires !Contains(ReplaceAll(s[1..], PostgresScheme, Psycopg2Scheme), PostgresScheme)
    ensures !Contains([s[0]] + ReplaceAll(s[1..], PostgresScheme, Psycopg2Scheme), PostgresScheme)
  {
    var rest := ReplaceAll(s[1..], PostgresScheme, Psycopg2Scheme);
    var r := [s[0]] + rest;
    forall i: nat ensures !OccursAt(r, PostgresScheme, i) {
      if i > 0 {
        NoSchemeShifted(s[0], rest, i);
      } else {
        NoSchemeAtKeptChar(s);
      }
    }
  }

  /** Every occurrence is replaced: the result contains no `postgresql://` at all. */
  lemma {:induction false} RewriteLeavesNoPlainScheme(s: string)
    ensures !Contains(ReplaceAll(s, PostgresScheme, Psycopg2Scheme), PostgresScheme)
    decreases |s|
  {
    var n := |PostgresScheme|;
    if |s| < n {
      var r := ReplaceAll(s, PostgresScheme, Psycopg2Scheme);
      assert r == s;
      forall i: nat ensures !OccursAt(r, PostgresScheme, i) {
      }
    } else if StartsWith(s, PostgresScheme) {
      RewriteLeavesNoPlainScheme(s[n..]);
      NoSchemeAfterReplacement(ReplaceAll(s[n..], PostgresScheme, Psycopg2Scheme));
    } else {
      RewriteLeavesNoPlainScheme(s[1..]);
      NoSchemeAfterKeptChar(s);
    }
  }

  /** A URL in the plain scheme comes out in the driver scheme. */
  lemma RewriteStartsWithDriverScheme(u: string)
    requires StartsWith(u, PostgresScheme)
    ensures StartsWith(ReplaceAll(u, PostgresScheme, Psycopg2Scheme), Psycopg2Scheme)
  {
  }

  /** config.py:44-45, first branch. */
  lemma ExplicitPostgresUrlRewritten(s: Settings)
    requires HasExplicitUrl(s) && StartsWith(s.databaseUrl.value, PostgresScheme)
    ensures SqlalchemyDatabaseUrl(s) == ReplaceAll(s.databaseUrl.value, PostgresScheme, Psycopg2Scheme)
    ensures StartsWith(SqlalchemyDatabaseUrl(s), Psycopg2Scheme)
    ensures !Contains(SqlalchemyDatabaseUrl(s), PostgresScheme)
  {
    RewriteLeavesNoPlainScheme(s.databaseUrl.value);
  }

  // ---------------------------------------------------------------------------
  // The assembled URL

  /** Splits at the first `c`: the text before it and the text after it. */
  function SplitAtFirst(s: string, c: char): (r: Option<(string, string)>)
    ensures r.Some? ==> s == r.value.0 + [c] + r.value.1 && c !in r.value.0
    ensures r.None? ==> c !in s
  {
    if s == [] then None
    else if s[0] == c then Some(([], s[1..]))
    else match SplitAtFirst(s[1..], c)
      case None => None
      case Some((before, after)) => Some(([s[0]] + before, after))
  }

  lemma {:induction false} SplitAtFirstOfJoin(a: string, c: char, b: string)
    requires c !in a
    ensures SplitAtFirst(a + [c] + b, c) == Some((a, b))
  {
    if a != [] {
      assert (a + [c] + b)[0] == a[0] != c;
      assert (a + [c] + b)[1..] == a[1..] + [c] + b;
      SplitAtFirstOfJoin(a[1..], c, b);
      assert [a[0]] + a[1..] == a;
    }
  }

  /** The parts a URL of the form scheme user:password@host:port/database names. */
  datatype Parts = Parts(user: string, password: string, host: string, port: int, database: string)

  /**
   * Reads the assembled URL back, splitting at the first `:`, `@`, `:`, `/`
   * after the scheme (the way userinfo, host and port are delimited).
   */
  function ParseConstructedUrl(u: string): (r: Option<Parts>)
    ensures r.Some? ==> StartsWith(u, Psycopg2Scheme)
  {
    if StartsWith(u, Psycopg2Scheme) then ParseAuthority(u[|Psycopg2Scheme|..]) else None
  }

  function ParseAuthority(body: string): Option<Parts> {
    match SplitAtFirst(body, ':')
    case None => None
    case Some((user, r1)) =>
      match SplitAtFirst(r1, '@')
      case None => None
      case Some((password, r2)) =>
        match SplitAtFirst(r2, ':')
        case None => None
        case Some((host, r3)) =>
          match SplitAtFirst(r3, '/')
          case None => None
          case Some((port, database)) =>
            match Decimal.ParseInt(port)
            case None => None
            case Some(n) => Some(Parts(user, password, host, n, database))
  }

  lemma ParseAuthorityOfJoin(user: string, password: string, host: string, port: int, database: string)
    requires ':' !in user && '@' !in password && ':' !in host
    ensures ParseAuthority(user + ":" + (password + "@" + (host + ":" + (Decimal.IntToDecimal(port) + "/" + database))))
      == Some(Parts(user, password, host, port, database))
  {
    var digits := Decimal.IntToDecimal(port);
    var r3 := digits + "/" + database;
    var r2 := host + ":" + r3;
    var r1 := password + "@" + r2;
    SplitAtFirstOfJoin(user, ':', r1);
    SplitAtFirstOfJoin(password, '@', r2);
    SplitAtFirstOfJoin(host, ':', r3);
    assert '/' !in digits by {
      assert forall k :: 0 <= k < |digits| ==> digits[k] != '/';
    }
    SplitAtFirstOfJoin(digits, '/', database);
    Decimal.IntToDecimalRoundTrip(port);
  }

  /**
   * config.py:44,46: with no usable DATABASE_URL the result is the driver
   * scheme followed by user:password@host:port/database, whatever the
   * settings hold.
   */
  lemma ConstructedUrlExact(s: Settings)
    requires !HasExplicitUrl(s)
    ensures SqlalchemyDatabaseUrl(s) == Psycopg2Scheme + s.pgUser + ":" + s.pgPassword + "@" + s.pgHost
      + ":" + Decimal.IntToDecimal(s.pgPort) + "/" + s.pgDatabase
  {
  }

  /**
   * As long as the user holds no `:`, the password no `@` and the host no `:`
   * (the settings are interpolated without percent-encoding), every setting
   * can be read back out of the constructed URL.
   */
  lemma ConstructedUrlRoundTrip(s: Settings)
    requires !HasExplicitUrl(s)
    requires ':' !in s.pgUser && '@' !in s.pgPassword && ':' !in s.pgHost
    ensures ParseConstructedUrl(SqlalchemyDatabaseUrl(s))
      == Some(Parts(s.pgUser, s.pgPassword, s.pgHost, s.pgPort, s.pgDatabase))
  {
    var body := s.pgUser + ":" + (s.pgPassword + "@" + (s.pgHost + ":"
      + (Decimal.IntToDecimal(s.pgPort) + "/" + s.pgDatabase)));
    var u := SqlalchemyDatabaseUrl(s);
    assert u == Psycopg2Scheme + body;
    assert u[|Psycopg2Scheme|..] == body;
    ParseAuthorityOfJoin(s.pgUser, s.pgPassword, s.pgHost, s.pgPort, s.pgDatabase);
  }

  /**
   * Because nothing is percent-encoded, a password `p1@p2` gives the same URL
   * as the password `p1` with the host `p2@host`: two different
   * configurations, one URL.
   */
  lemma UnencodedCredentialsCollide(s: Settings, p1: string, p2: string)
    requires !HasExplicitUrl(s) && s.pgPassword == p1 + "@" + p2
    ensures s.(pgPassword := p1, pgHost := p2 + "@" + s.pgHost) != s
    ensures SqlalchemyDatabaseUrl(s.(pgPassword := p1, pgHost := p2 + "@" + s.pgHost)) == SqlalchemyDatabaseUrl(s)
  {
    var t := s.(pgPassword := p1, pgHost := p2 + "@" + s.pgHost);
    assert |t.pgPassword| < |s.pgPassword|;
    ConstructedUrlExact(s);
    ConstructedUrlExact(t);
    RegroupAt(Psycopg2Scheme + s.pgUser + ":", p1, "@", p2, s.pgHost,
      ":" + Decimal.IntToDecimal(s.pgPort) + "/" + s.pgDatabase);
  }

  /** Moving the middle of `p1 @ p2 @ h` from the left group to the right one. */
  lemma RegroupAt(head: string, p1: string, at: string, p2: string, h: string, tail: string)
    ensures head + (p1 + at + p2) + at + h + tail == head + p1 + at + (p2 + at + h) + tail
  {
  }

  /** config.py:34-35,46: with the default host and port the URL names localhost:5432. */
  lemma DefaultsGiveLocalhost(user: string, password: string, database: string)
    ensures Contains(SqlalchemyDatabaseUrl(WithDefaults(user, password, database)), "@localhost:5432/")
  {
    var s := WithDefaults(user, password, database);
    var u := SqlalchemyDatabaseUrl(s);
    var head := Psycopg2Scheme + user + ":" + password;
    DefaultAuthorityText();
    ConstructedUrlExact(s);
    assert u == head + ("@" + DefaultHost + ":" + Decimal.IntToDecimal(DefaultPort) + "/") + database;
    assert u == head + "@localhost:5432/" + database;
    var i := |head|;
    assert u[i..i + 16] == "@localhost:5432/";
    assert OccursAt(u, "@localhost:5432/", i);
  }

  /** The default host and port, as the f-string writes them between `@` and `/`. */
  lemma DefaultAuthorityText()
    ensures "@" + DefaultHost + ":" + Decimal.IntToDecimal(DefaultPort) + "/" == "@localhost:5432/"
  {
    assert Decimal.NatToDecimal(5) == "5";
    assert Decimal.NatToDecimal(54) == "54";
    assert Decimal.NatToDecimal(543) == "543";
    assert Decimal.NatToDecimal(5432) == "5432";
  }

  // ---------------------------------------------------------------------------
  // Idempotence

  /**
   * Feeding the derived URL back in as DATABASE_URL gives it back unchanged,
   * in all three branches.
   */
  lemma DerivationIsIdempotent(s: Settings)
    ensures SqlalchemyDatabaseUrl(s.(databaseUrl := Some(SqlalchemyDatabaseUrl(s)))) == SqlalchemyDatabaseUrl(s)
  {
    var r := SqlalchemyDatabaseUrl(s);
    if HasExplicitUrl(s) && StartsWith(s.databaseUrl.value, PostgresScheme) {
      RewriteStartsWithDriverScheme(s.databaseUrl.value);
      Psycopg2IsNotPostgres(r);
    } else if !HasExplicitUrl(s) {
      Psycopg2IsNotPostgres(r);
    }
  }

  /** An explicit URL already in the driver scheme is passed through. */
  lemma DriverSchemeUrlUnchanged(s: Settings)
    requires s.databaseUrl.Some? && StartsWith(s.databaseUrl.value, Psycopg2Scheme)
    ensures SqlalchemyDatabaseUrl(s) == s.databaseUrl.value
  {
    Psycopg2IsNotPostgres(s.databaseUrl.value);
  }
}
