/** The health probe: reports whether the two secrets are configured,
    giving presence and length only, never a value. */
module Health {
  import opened Env
  import opened Js

  /** The record the probe sends. */
  datatype HealthReport = HealthReport(
    ok: bool,
    clientSharedKeyPresent: bool,
    clientSharedKeyLength: nat,
    githubTokenPresent: bool)

  /** The probe's answer: its status code and the record. */
  datatype HealthResponse = HealthResponse(status: int, report: HealthReport)

  /** `(process.env.CLIENT_SHARED_KEY || "").length`, in UTF-16 code units. */
  function SharedKeyLength(cfg: Config): (len: nat)
    ensures cfg.clientSharedKey.None? ==> len == 0
    ensures cfg.clientSharedKey.Some? ==> len == Utf16Length(cfg.clientSharedKey.value)
    ensures len == 0 <==> (cfg.clientSharedKey.None? || cfg.clientSharedKey.value == "")
  {
    Utf16Length(if cfg.clientSharedKey.Some? then cfg.clientSharedKey.value else "")
  }

  /** `!!process.env.GITHUB_TOKEN`: the truthiness of the variable, which
      is `undefined` when unset; so the token is present exactly when it is
      set and not empty. */
  function HasToken(cfg: Config): (present: bool)
    ensures present == Truthy(if cfg.githubToken.Some? then Str(cfg.githubToken.value) else Undefined)
    ensures present <==> cfg.githubToken.Some? && cfg.githubToken.value != ""
  {
    cfg.githubToken.Some? && cfg.githubToken.value != ""
  }

  /** The probe: always 200 with `ok: true`; the key is reported present
      exactly when it is set and not empty. */
  function Probe(cfg: Config): (r: HealthResponse)
    ensures r.status == 200 && r.report.ok
    ensures r.report.clientSharedKeyLength == SharedKeyLength(cfg)
    ensures r.report.clientSharedKeyPresent <==> r.report.clientSharedKeyLength > 0
    ensures r.report.clientSharedKeyPresent <==>
              cfg.clientSharedKey.Some? && cfg.clientSharedKey.value != ""
    ensures r.report.githubTokenPresent <==> cfg.githubToken.Some? && cfg.githubToken.value != ""
  {
    var len := SharedKeyLength(cfg);
    HealthResponse(200, HealthReport(true, len > 0, len, HasToken(cfg)))
  }

  /** The report depends on the secrets only through the key's length and
      whether the token is there: two configurations that agree on those
      give the same answer, so no value can be read off it. */
  lemma ProbeRevealsNoSecret(a: Config, b: Config)
    requires SharedKeyLength(a) == SharedKeyLength(b)
    requires HasToken(a) == HasToken(b)
    ensures Probe(a) == Probe(b)
  {
  }

  /** The reported length is the key's number of characters exactly when
      every character of the key is in the Basic Multilingual Plane; a
      character outside it adds one more code unit. */
  lemma {:induction false} BmpKeyLength(s: string)
    ensures Utf16Length(s) == |s| <==> InBmp(s)
  {
    if s != "" {
      BmpKeyLength(s[1..]);
      if InBmp(s) {
        assert InBmp(s[1..]) by {
          forall i | 0 <= i < |s[1..]| ensures s[1..][i] as int <= 0xFFFF {
            assert s[1..][i] == s[i + 1];
          }
        }
      } else if s[0] as int <= 0xFFFF {
        var j :| 0 <= j < |s| && s[j] as int > 0xFFFF;
        assert s[1..][j - 1] == s[j];
      }
    }
  }
}
