/** `SignatureService` (services/signer.py): an in-memory store of signing
    envelopes, each pending until it is signed. The file hash, the clock
    and the ISO timestamps are inputs. */
module Signer {
  import opened Wrappers
  import opened Text

  datatype EnvelopeStatus = Pending | Signed

  /** One stored envelope. `signerIp` is absent until signing, and then the
      address given to `sign_envelope`, which may itself be absent. */
  datatype Envelope = Envelope(
    contractId: int,
    pdfPath: string,
    signer: map<string, string>,
    status: EnvelopeStatus,
    fileHash: string,
    createdAt: string,
    signedAt: Option<string>,
    signerIp: Option<Option<string>>)

  /** What `create_envelope` returns. */
  datatype Created = Created(envelopeId: string, statusUrl: string, signerLink: string, fileHash: string)

  /** What `get_envelope_status` returns. */
  datatype StatusView = StatusView(
    envelopeId: string,
    status: EnvelopeStatus,
    createdAt: string,
    signedAt: Option<string>,
    signer: map<string, string>)

  /** The audit record `sign_envelope` returns. */
  datatype AuditRecord = AuditRecord(
    envelopeId: string,
    signerName: string,
    signerIp: Option<string>,
    timestamp: string,
    fileHash: string)

  const NotFound: string := "Envelope not found"

  /** `f"env_{contract_id}_{int(timestamp)}"` */
  function EnvelopeId(contractId: int, timestamp: int): (id: string)
    ensures StartsWith(id, "env_")
  {
    "env_" + IntToString(contractId) + "_" + IntToString(timestamp)
  }

  /** A pending envelope has no signing time; a signed one has one. */
  predicate WellFormed(e: Envelope) {
    e.status == Pending <==> e.signedAt.None?
  }

  class SignatureService {
    var envelopes: map<string, Envelope>

    predicate Valid()
      reads this
    {
      forall id :: id in envelopes ==> WellFormed(envelopes[id])
    }

    constructor()
      ensures envelopes == map[] && Valid()
    {
      envelopes := map[];
    }

    /** `create_envelope`: store a pending envelope under the id made from
        the contract id and the creation second, replacing any envelope
        already stored under that id. */
    method CreateEnvelope(contractId: int, pdfPath: string, signer: map<string, string>,
                          fileHash: string, timestamp: int, createdAt: string)
      returns (r: Created)
      requires Valid()
      modifies this
      ensures r.envelopeId == EnvelopeId(contractId, timestamp)
      ensures envelopes == old(envelopes)[r.envelopeId :=
        Envelope(contractId, pdfPath, signer, Pending, fileHash, createdAt, None, None)]
      ensures r.statusUrl == "/api/sign/status/" + r.envelopeId
      ensures r.signerLink == "/sign/" + r.envelopeId + "?token=mock_token"
      ensures r.fileHash == fileHash
      ensures Valid()
    {
      var envelopeId := EnvelopeId(contractId, timestamp);
      envelopes := envelopes[envelopeId :=
        Envelope(contractId, pdfPath, signer, Pending, fileHash, createdAt, None, None)];
      var signerLink := "/sign/" + envelopeId + "?token=mock_token";
      r := Created(envelopeId, "/api/sign/status/" + envelopeId, signerLink, fileHash);
    }

    /** `get_envelope_status`: an unknown id is an error; a known one shows
        a signing time exactly when it has been signed. */
    method GetEnvelopeStatus(envelopeId: string) returns (r: Result<StatusView, string>)
      requires Valid()
      ensures envelopeId !in envelopes ==> r == Failure(NotFound)
      ensures r.Success? ==> (r.value.status == Pending <==> r.value.signedAt.None?)
      ensures envelopeId in envelopes ==>
        var e := envelopes[envelopeId];
        r == Success(StatusView(envelopeId, e.status, e.createdAt, e.signedAt, e.signer))
    {
      if envelopeId !in envelopes {
        return Failure(NotFound);
      }
      var envelope := envelopes[envelopeId];
      r := Success(StatusView(envelopeId, envelope.status, envelope.createdAt, envelope.signedAt, envelope.signer));
    }

    /** `sign_envelope`: mark a known envelope signed, at `signedAt` from
        `ipAddress`, and return the audit record. Nothing stops a second
        signing, which overwrites the time and address. */
    method SignEnvelope(envelopeId: string, signerName: string, ipAddress: Option<string>, signedAt: string)
      returns (r: Result<AuditRecord, string>)
      requires Valid()
      modifies this
      ensures envelopeId !in old(envelopes) ==> r == Failure(NotFound) && envelopes == old(envelopes)
      ensures envelopeId in old(envelopes) ==>
        var e := old(envelopes)[envelopeId];
        && envelopes == old(envelopes)[envelopeId :=
             e.(status := Signed, signedAt := Some(signedAt), signerIp := Some(ipAddress))]
        && r == Success(AuditRecord(envelopeId, signerName, ipAddress, signedAt, e.fileHash))
      ensures Valid()
    {
      if envelopeId !in envelopes {
        return Failure(NotFound);
      }
      var envelope := envelopes[envelopeId];
      envelope := envelope.(status := Signed);
      envelope := envelope.(signedAt := Some(signedAt));
      envelope := envelope.(signerIp := Some(ipAddress));
      envelopes := envelopes[envelopeId := envelope];
      r := Success(AuditRecord(envelopeId, signerName, ipAddress, envelope.signedAt.value, envelope.fileHash));
    }
  }

  /** Different contracts or different seconds give different envelope ids,
      for non-negative contract ids and timestamps, so one create never
      replaces another's envelope unless both match. */
  lemma EnvelopeIdInjective(a: nat, s: nat, b: nat, t: nat)
    requires EnvelopeId(a, s) == EnvelopeId(b, t)
    ensures a == b && s == t
  {
    EnvelopeIdTail(a, s);
    EnvelopeIdTail(b, t);
    SplitAtFirstNonDigit(NatToString(a), NatToString(s), NatToString(b), NatToString(t));
    NatToStringInjective(a, b);
    NatToStringInjective(s, t);
  }

  /** After the `env_` prefix come the two numbers, joined by `_`. */
  lemma EnvelopeIdTail(a: nat, s: nat)
    ensures EnvelopeId(a, s)[4..] == NatToString(a) + "_" + NatToString(s)
  {
    var x, u := NatToString(a), NatToString(s);
    assert EnvelopeId(a, s) == "env_" + (x + "_" + u);
  }

  /** Two digit runs each followed by `_` split the same string only at the
      same place. */
  lemma SplitAtFirstNonDigit(x: string, u: string, y: string, v: string)
    requires AllAsciiDigits(x) && AllAsciiDigits(y)
    requires x + "_" + u == y + "_" + v
    ensures x == y && u == v
  {
    var w := x + "_" + u;
    assert w == x + ("_" + u) && w == y + ("_" + v);
    DigitRunEndsAtUnderscore(x, "_" + u, 0);
    DigitRunEndsAtUnderscore(y, "_" + v, 0);
    assert x == w[..|x|] && y == w[..|y|];
    assert u == w[|x| + 1..] && v == w[|y| + 1..];
  }

  /** The index of the first non-digit at or after `i`. */
  function FirstNonDigit(w: string, i: nat): (e: nat)
    requires i <= |w|
    ensures i <= e <= |w|
    decreases |w| - i
  {
    if i == |w| || !IsAsciiDigit(w[i]) then i else FirstNonDigit(w, i + 1)
  }

  lemma {:induction false} DigitRunEndsAtUnderscore(x: string, rest: string, i: nat)
    requires AllAsciiDigits(x) && i <= |x|
    requires rest != [] && !IsAsciiDigit(rest[0])
    ensures FirstNonDigit(x + rest, i) == |x|
    decreases |x| - i
  {
    if i < |x| {
      DigitRunEndsAtUnderscore(x, rest, i + 1);
    }
  }
}
