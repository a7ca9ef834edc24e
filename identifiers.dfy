/** The identifiers the system derives from an EVSE's integer id. Nothing
    stores the association between an EVSE, its Charge Point and its ISO 15118
    server: every component recomputes it, so these derivations must be
    injective and agree everywhere they are used. */
module Identifiers {
  import opened Common

  /** First port of the per-EVSE ISO 15118 servers. */
  const IsoBasePort: int := 9001

  /** The Charge Point identity of EVSE `evseId`: `f"CP_{evse_id}"`. */
  function StationId(evseId: int): (r: string)
    ensures |r| > 3 && r[..3] == "CP_"
  {
    "CP_" + IntToString(evseId)
  }

  /** Recovers the EVSE id from a Charge Point identity. */
  function ParseStationId(cpId: string): (r: Option<int>)
  {
    if |cpId| >= 3 && cpId[..3] == "CP_" then ParseInt(cpId[3..]) else None
  }

  lemma StationIdRoundTrip(evseId: int)
    ensures ParseStationId(StationId(evseId)) == Some(evseId)
  {
    var s := StationId(evseId);
    assert s[3..] == IntToString(evseId);
    IntToStringRoundTrip(evseId);
  }

  /** Two EVSEs never share a Charge Point identity. */
  lemma StationIdInjective(a: int, b: int)
    ensures StationId(a) == StationId(b) <==> a == b
  {
    StationIdRoundTrip(a);
    StationIdRoundTrip(b);
  }

  /** The port of the ISO 15118 server of EVSE `evseId`: `9001 + evse.id`. */
  function IsoPort(evseId: int): (port: int)
    ensures port - IsoBasePort == evseId
  {
    IsoBasePort + evseId
  }

  /** The EVSE served on `port`. */
  function EvseOfIsoPort(port: int): (evseId: int)
    ensures IsoPort(evseId) == port
  {
    port - IsoBasePort
  }

  /** The address the simulated EV dials: `f"ws://localhost:{9001 + evse.id}"`. */
  function EvClientUri(evseId: int): (uri: string)
    ensures |uri| > 15 && uri[..15] == "ws://localhost:"
    ensures ParseInt(uri[15..]) == Some(IsoPort(evseId))
  {
    var uri := "ws://localhost:" + IntToString(IsoPort(evseId));
    assert uri[15..] == IntToString(IsoPort(evseId));
    IntToStringRoundTrip(IsoPort(evseId));
    uri
  }

  /** The converse of StationIdRoundTrip: an identity written without
      leading zeros is exactly the identity of the EVSE it parses to. */
  lemma ParseStationIdCanonical(cpId: string)
    requires ParseStationId(cpId).Some? && Canonical(cpId[3..])
    ensures cpId == StationId(ParseStationId(cpId).value)
  {
    var t := cpId[3..];
    ParseIntCanonicalOnDigits(t, ParseStationId(cpId).value);
    assert cpId == cpId[..3] + t;
  }

  /** ParseInt only reads back what IntToString writes when the text has no
      leading zeros; this is the shape of IntToString's output. */
  predicate Canonical(s: string) {
    && |s| >= 1
    && (s[0] == '-' ==> |s| >= 2 && s[1] != '0')
    && (s[0] == '0' ==> |s| == 1)
  }

  lemma ParseIntCanonicalOnDigits(t: string, id: int)
    requires ParseInt(t) == Some(id)
    ensures Canonical(t) ==> t == IntToString(id)
  {
    if Canonical(t) {
      if t[0] == '-' {
        NegativeCanonical(t);
      } else {
        DigitsCanonical(t);
      }
    }
  }

  lemma NegativeCanonical(t: string)
    requires |t| >= 2 && t[0] == '-' && t[1] != '0' && AllDigits(t[1..])
    ensures t == IntToString(-(DigitsValue(t[1..]) as int))
  {
    var d := t[1..];
    DigitsCanonical(d);
    DigitsValuePositive(d);
    assert t == "-" + d;
  }

  lemma {:induction false} DigitsCanonical(s: string)
    requires AllDigits(s) && |s| >= 1
    requires s[0] == '0' ==> |s| == 1
    ensures Digits(DigitsValue(s)) == s
    decreases |s|
  {
    if |s| == 1 {
      assert DigitsValue(s) == DigitsValue(s[..0]) * 10 + ((s[0] as int) - ('0' as int));
    } else {
      var init := s[..|s| - 1];
      DigitsCanonical(init);
      DigitsValuePositive(init);
      var n := DigitsValue(s);
      assert n / 10 == DigitsValue(init);
      assert s == init + [s[|s| - 1]];
    }
  }

  lemma {:induction false} DigitsValuePositive(s: string)
    requires AllDigits(s) && |s| >= 1 && s[0] != '0'
    ensures DigitsValue(s) >= 1
    decreases |s|
  {
    if |s| > 1 {
      DigitsValuePositive(s[..|s| - 1]);
    }
  }
}
