/** controller/encaps.c: the tunnel ids kept in external-ids:ovn-chassis-id. */
module TunnelId {
  import opened Options

  /** What a tunnel id names. */
  datatype Tunnel = Tunnel(chassis: string, remote: string, local: Option<string>)

  /** `encaps_tunnel_id_create` */
  function Create(chassis: string, remote: string, local: string): string {
    chassis + "@" + remote + "%" + local
  }

  /** `encaps_tunnel_id_create_legacy` */
  function CreateLegacy(chassis: string, remote: string): string {
    chassis + "@" + remote
  }

  // -------------------------------------------------------------------- strtok_r

  /** Length of the prefix made of `d` only, as of `strspn`. */
  function Spn(s: string, d: char): (n: nat)
    ensures n <= |s| && (forall i | 0 <= i < n :: s[i] == d) && (n < |s| ==> s[n] != d)
  {
    if s == "" || s[0] != d then 0 else 1 + Spn(s[1..], d)
  }

  /** Length of the prefix without `d`, as of `strcspn`. */
  function Cspn(s: string, d: char): (n: nat)
    ensures n <= |s| && (forall i | 0 <= i < n :: s[i] != d) && (n < |s| ==> s[n] == d)
  {
    if s == "" || s[0] == d then 0 else 1 + Cspn(s[1..], d)
  }

  /** The copy that is being tokenised: the part `strtok_r` has saved. */
  class Tokenizer {
    var rest: string

    constructor (s: string)
      ensures rest == s
    {
      rest := s;
    }

    /** `strtok_r` with one delimiter: tokens are not empty and hold no
        delimiter; only delimiters come before. */
    method Next(d: char) returns (token: Option<string>)
      modifies this
      ensures token == Token(old(rest), d) && rest == Rest(old(rest), d)
    {
      var n := Spn(rest, d);
      rest := rest[n..];
      if rest == "" {
        return None;
      }
      var k := Cspn(rest, d);
      token := Some(rest[..k]);
      rest := if k < |rest| then rest[k + 1..] else "";
    }

    /** `strtok_r` without delimiters. */
    method Last() returns (token: Option<string>)
      modifies this
      ensures token == if old(rest) == "" then None else Some(old(rest))
    {
      if rest == "" {
        return None;
      }
      token := Some(rest);
      rest := "";
    }
  }

  function Token(s: string, d: char): (r: Option<string>)
    ensures r.Some? ==> r.value != "" && d !in r.value
    ensures r.None? <==> forall i | 0 <= i < |s| :: s[i] == d
  {
    var t := s[Spn(s, d)..];
    if t == "" then None else Some(t[..Cspn(t, d)])
  }

  function Rest(s: string, d: char): string {
    var t := s[Spn(s, d)..];
    var k := Cspn(t, d);
    if k < |t| then t[k + 1..] else ""
  }

  lemma TokenBefore(s: string, d: char, rest: string)
    requires s != "" && d !in s
    ensures Token(s + [d] + rest, d) == Some(s) && Rest(s + [d] + rest, d) == rest
  {
    var all := s + [d] + rest;
    assert all[0] == s[0];
    assert Spn(all, d) == 0 && all[0..] == all;
    var k := Cspn(all, d);
    assert all[|s|] == d;
    assert forall i | 0 <= i < |s| :: all[i] == s[i];
    assert k == |s|;
    assert all[..k] == s && all[k + 1..] == rest;
  }

  lemma TokenAlone(s: string, d: char)
    requires s != "" && d !in s
    ensures Token(s, d) == Some(s) && Rest(s, d) == ""
  {
    assert Spn(s, d) == 0 && s[0..] == s;
    assert Cspn(s, d) == |s| && s[..|s|] == s;
  }

  // ----------------------------------------------------------------- parse and match

  function LastToken(s: string): Option<string> {
    if s == "" then None else Some(s)
  }

  function Parsed(id: string): Option<Tunnel> {
    var rest := Rest(id, '@');
    if Token(id, '@').None? || Token(rest, '%').None? then None
    else Some(Tunnel(Token(id, '@').value, Token(rest, '%').value, LastToken(Rest(rest, '%'))))
  }

  /** `encaps_tunnel_id_parse` */
  method Parse(id: string) returns (r: Option<Tunnel>)
    ensures r == Parsed(id)
  {
    var tok := new Tokenizer(id);
    var chassis := tok.Next('@');
    if chassis.None? {
      return None;
    }
    var remote := tok.Next('%');
    if remote.None? {
      return None;
    }
    var local := tok.Last();
    return Some(Tunnel(chassis.value, remote.value, local));
  }

  predicate Wanted(given: Option<string>, want: Option<string>) {
    want.None? || given == want
  }

  /** Which parts after the chassis match. */
  predicate AddressesMatch(rest: string, remote: Option<string>, local: Option<string>) {
    Wanted(Token(rest, '%'), remote) && (Rest(rest, '%') == "" || Wanted(Some(Rest(rest, '%')), local))
  }

  /** `encaps_tunnel_id_match`: which ids match. */
  predicate Matches(id: string, chassis: string, remote: Option<string>, local: Option<string>) {
    Token(id, '@') == Some(chassis) && AddressesMatch(Rest(id, '@'), remote, local)
  }

  /** `encaps_tunnel_id_match` */
  method Match(id: string, chassis: string, remote: Option<string>, local: Option<string>) returns (r: bool)
    ensures r <==> Matches(id, chassis, remote, local)
  {
    var tok := new Tokenizer(id);
    var c := tok.Next('@');
    if c.None? || c.value != chassis {
      return false;
    }
    r := MatchAddresses(tok, remote, local);
  }

  /** The part of `encaps_tunnel_id_match` after the chassis. */
  method MatchAddresses(tok: Tokenizer, remote: Option<string>, local: Option<string>) returns (r: bool)
    modifies tok
    ensures r <==> AddressesMatch(old(tok.rest), remote, local)
  {
    var t := tok.Next('%');
    if remote.Some? && (t.None? || t.value != remote.value) {
      return false;
    }
    var l := tok.Last();
    if l.Some? && local.Some? && l.value != local.value {
      return false;
    }
    return true;
  }

  predicate ChassisOk(c: string) {
    c != "" && '@' !in c
  }

  predicate RemoteOk(r: string) {
    r != "" && '%' !in r
  }

  lemma CreatedTokens(c: string, r: string, l: string)
    requires ChassisOk(c)
    ensures Token(Create(c, r, l), '@') == Some(c) && Rest(Create(c, r, l), '@') == r + "%" + l
  {
    assert Create(c, r, l) == c + ['@'] + (r + "%" + l);
    TokenBefore(c, '@', r + "%" + l);
  }

  /** A created id parses to what it was made of exactly if the chassis is not
      empty and has no '@', the remote address is not empty and has no '%', and
      the local address is not empty. */
  lemma RoundTrip(c: string, r: string, l: string)
    ensures Parsed(Create(c, r, l)) == Some(Tunnel(c, r, Some(l))) <==> ChassisOk(c) && RemoteOk(r) && l != ""
  {
    if ChassisOk(c) {
      CreatedTokens(c, r, l);
      if RemoteOk(r) {
        assert r + "%" + l == r + ['%'] + l;
        TokenBefore(r, '%', l);
      }
    }
  }

  lemma LegacyRoundTrip(c: string, r: string)
    ensures Parsed(CreateLegacy(c, r)) == Some(Tunnel(c, r, None)) <==> ChassisOk(c) && RemoteOk(r)
  {
    if ChassisOk(c) {
      assert CreateLegacy(c, r) == c + ['@'] + r;
      TokenBefore(c, '@', r);
      if RemoteOk(r) {
        TokenAlone(r, '%');
      }
    }
  }

  /** A created id matches iff every component that is given is equal. */
  lemma CreatedMatches(c: string, r: string, l: string, chassis: string, remote: Option<string>, local: Option<string>)
    requires ChassisOk(c) && RemoteOk(r) && l != ""
    ensures Matches(Create(c, r, l), chassis, remote, local) <==>
      chassis == c && (remote.Some? ==> remote.value == r) && (local.Some? ==> local.value == l)
  {
    CreatedTokens(c, r, l);
    assert r + "%" + l == r + ['%'] + l;
    TokenBefore(r, '%', l);
  }

  /** An id in the old form ignores the local address. */
  lemma LegacyMatches(c: string, r: string, chassis: string, remote: Option<string>, local: Option<string>)
    requires ChassisOk(c) && RemoteOk(r)
    ensures Matches(CreateLegacy(c, r), chassis, remote, local) <==>
      chassis == c && (remote.Some? ==> remote.value == r)
  {
    assert CreateLegacy(c, r) == c + ['@'] + r;
    TokenBefore(c, '@', r);
    TokenAlone(r, '%');
  }

  /** Ids made of different, well-formed components are different. */
  lemma CreateInjective(c: string, r: string, l: string, c': string, r': string, l': string)
    requires ChassisOk(c) && RemoteOk(r) && l != "" && ChassisOk(c') && RemoteOk(r') && l' != ""
    requires Create(c, r, l) == Create(c', r', l')
    ensures c == c' && r == r' && l == l'
  {
    RoundTrip(c, r, l);
    RoundTrip(c', r', l');
  }

  /** Matching agrees with parsing, for any id that parses. */
  lemma MatchesParsed(id: string, chassis: string, remote: Option<string>, local: Option<string>)
    requires Parsed(id).Some?
    ensures var t := Parsed(id).value;
      Matches(id, chassis, remote, local) <==>
      && t.chassis == chassis && (remote.Some? ==> remote.value == t.remote)
      && (t.local.Some? && local.Some? ==> local == t.local)
  {
  }
}
