// What an attestation needs to be accepted, and that the signers can always provide it.
module EscrowQuorum {
  import opened Results
  import opened Erc20
  import opened EscrowModel

  predicate Ascending(a: seq<Address>) {
    forall i, j :: 0 <= i < j < |a| ==> a[i] < a[j]
  }

  // At least `threshold` different listed signers, in strictly ascending order.
  predicate Quorum(recovered: seq<Address>, isSigner: set<Address>, threshold: nat) {
    && |recovered| >= threshold
    && Ascending(recovered)
    && (forall i :: 0 <= i < |recovered| ==> recovered[i] != 0 && recovered[i] in isSigner)
  }

  // Reading the addresses in order and keeping the last one is enough to see that they ascend.
  lemma AscendingFrom(a: seq<Address>, last: Address, isSigner: set<Address>)
    requires a != []
    ensures Ascending(a) && (forall i :: 0 <= i < |a| ==> last < a[i] && a[i] in isSigner) <==>
            && last < a[0] && a[0] in isSigner
            && Ascending(a[1..]) && (forall i :: 0 <= i < |a[1..]| ==> a[0] < a[1..][i] && a[1..][i] in isSigner)
  {
    var rest := a[1..];
    assert forall i :: 0 <= i < |rest| ==> rest[i] == a[i + 1];
    if Ascending(rest) && forall i :: 0 <= i < |rest| ==> a[0] < rest[i] {
      forall i, j | 0 <= i < j < |a| ensures a[i] < a[j] {
        assert a[j] == rest[j - 1] && (i > 0 ==> a[i] == rest[i - 1]);
      }
    }
  }

  lemma {:induction false} QuorumFaultExact(recovered: seq<Address>, last: Address, isSigner: set<Address>)
    ensures QuorumFault(recovered, last, isSigner).None? <==>
            Ascending(recovered) && forall i :: 0 <= i < |recovered| ==> last < recovered[i] && recovered[i] in isSigner
  {
    if recovered != [] {
      AscendingFrom(recovered, last, isSigner);
      QuorumFaultExact(recovered[1..], recovered[0], isSigner);
    }
  }

  // ── who signed ──

  // The signature is somebody's under recovery id `v`, which may be written from 27 or from zero on: the
  // chain says whose, and the s value is in the lower half.
  predicate SignedWith(dep: Deployment, d: Digest, sig: Signature, v: nat, who: Address) {
    && (sig.v == v || sig.v + 27 == v) && sig.s <= HALF_CURVE_ORDER
    && who != 0 && dep.ecrecover(d, v, sig.r, sig.s) == who
  }

  predicate SignedBy(dep: Deployment, d: Digest, sig: Signature, who: Address) {
    SignedWith(dep, d, sig, 27, who) || SignedWith(dep, d, sig, 28, who)
  }

  predicate AllSignedBy(dep: Deployment, d: Digest, sigs: seq<Signature>, who: seq<Address>) {
    |who| == |sigs| && forall i :: 0 <= i < |sigs| ==> SignedBy(dep, d, sigs[i], who[i])
  }

  // As many different listed signers as are needed, in ascending order, have each given one of the signatures.
  ghost predicate SignedByQuorum(dep: Deployment, d: Digest, sigs: seq<Signature>, isSigner: set<Address>,
                                 threshold: nat) {
    exists who :: AllSignedBy(dep, d, sigs, who) && Quorum(who, isSigner, threshold)
  }

  // What is recovered from a signature is who signed it, and zero exactly when nobody did.
  lemma RecoversWhoSigned(dep: Deployment, d: Digest, sig: Signature, who: Address)
    ensures SignedBy(dep, d, sig, who) <==> who != 0 && Recover(dep, d, sig) == who
  {}

  lemma QuorumIsRecovered(dep: Deployment, d: Digest, sigs: seq<Signature>, isSigner: set<Address>, threshold: nat)
    ensures SignedByQuorum(dep, d, sigs, isSigner, threshold)
            <==> Quorum(RecoverAll(dep, d, sigs), isSigner, threshold)
  {
    var recovered := RecoverAll(dep, d, sigs);
    if SignedByQuorum(dep, d, sigs, isSigner, threshold) {
      var who :| AllSignedBy(dep, d, sigs, who) && Quorum(who, isSigner, threshold);
      forall i | 0 <= i < |sigs| ensures recovered[i] == who[i] {
        RecoversWhoSigned(dep, d, sigs[i], who[i]);
      }
      assert recovered == who;
    }
    if Quorum(recovered, isSigner, threshold) {
      forall i | 0 <= i < |sigs| ensures SignedBy(dep, d, sigs[i], recovered[i]) {
        RecoversWhoSigned(dep, d, sigs[i], recovered[i]);
      }
      assert AllSignedBy(dep, d, sigs, recovered);
    }
  }

  // An attestation is accepted exactly when it is unexpired, unused and signed by a quorum.
  lemma ConsumeAcceptsExactlyQuorums(dep: Deployment, s: State, tx: Tx, att: Attestation, sigs: seq<Signature>)
    ensures var d := HashAttestation(dep, s, tx, att);
      && (Consume(dep, s, tx, att, sigs).Success? <==>
            tx.now <= att.deadline && d !in s.attestationUsed && SignedByQuorum(dep, d, sigs, s.isSigner, s.threshold))
      && (Consume(dep, s, tx, att, sigs).Success? ==>
            Consume(dep, s, tx, att, sigs).value == s.(attestationUsed := s.attestationUsed + {d}))
  {
    var d := HashAttestation(dep, s, tx, att);
    QuorumFaultExact(RecoverAll(dep, d, sigs), 0, s.isSigner);
    QuorumIsRecovered(dep, d, sigs, s.isSigner, s.threshold);
  }

  const CURVE_ORDER: nat := 0xFFFF_FFFF_FFFF_FFFF_FFFF_FFFF_FFFF_FFFE_BAAE_DCE6_AF48_A03B_BFD2_5E8C_D036_4141

  // Of a signature and its twin, which the curve takes for the same, exactly one has a low s value.
  lemma OneTwinIsLow(s: nat)
    requires 0 < s < CURVE_ORDER
    ensures s <= HALF_CURVE_ORDER <==> CURVE_ORDER - s > HALF_CURVE_ORDER
  {}

  lemma {:induction false} AscendingCountsOnce(a: seq<Address>)
    requires Ascending(a)
    ensures |Addresses(a)| == |a|
  {
    if a != [] {
      var rest := a[..|a| - 1];
      AscendingCountsOnce(rest);
      assert a == rest + [a[|a| - 1]];
      assert Addresses(a) == Addresses(rest) + {a[|a| - 1]};
    }
  }

  // A quorum is that many different people: repeating one signature gains nothing.
  lemma QuorumIsThatManySigners(recovered: seq<Address>, isSigner: set<Address>, threshold: nat)
    requires Quorum(recovered, isSigner, threshold)
    ensures Addresses(recovered) <= isSigner && |Addresses(recovered)| >= threshold
  {
    AscendingCountsOnce(recovered);
  }

  // The governance invariant: the lookup set is the list, nobody is listed twice or is address
  // zero, and the threshold can be reached but is not zero.
  ghost predicate SignersOk(isSigner: set<Address>, signerList: seq<Address>, threshold: nat, minScore: nat) {
    && isSigner == Addresses(signerList)
    && 0 !in signerList
    && (forall i, j :: 0 <= i < j < |signerList| ==> signerList[i] != signerList[j])
    && 1 <= threshold <= |signerList|
    && minScore <= 100
  }

  lemma {:induction false} ListFaultExact(signers: seq<Address>, seen: set<Address>)
    ensures ListFault(signers, seen).None? <==>
            && 0 !in signers
            && (forall a :: a in signers ==> a !in seen)
            && (forall i, j :: 0 <= i < j < |signers| ==> signers[i] != signers[j])
  {
    if signers != [] {
      var rest := signers[1..];
      ListFaultExact(rest, seen + {signers[0]});
      assert signers == [signers[0]] + rest;
    }
  }

  // Settings are accepted exactly when they meet the governance invariant.
  lemma SettingsAcceptedExactly(signers: seq<Address>, threshold: nat, minScore: nat)
    ensures SettingsFault(signers, threshold, minScore).None? <==>
            SignersOk(Addresses(signers), signers, threshold, minScore)
  {
    ListFaultExact(signers, {});
  }

  lemma {:induction false} DistinctCountsOnce(a: seq<Address>)
    requires forall i, j :: 0 <= i < j < |a| ==> a[i] != a[j]
    ensures |Addresses(a)| == |a|
  {
    if a != [] {
      var rest := a[..|a| - 1];
      DistinctCountsOnce(rest);
      assert a == rest + [a[|a| - 1]];
      assert Addresses(a) == Addresses(rest) + {a[|a| - 1]};
    }
  }

  lemma {:induction false} MaximumOf(s: set<Address>) returns (m: Address)
    requires s != {}
    ensures m in s && forall a :: a in s ==> a <= m
  {
    var x :| x in s;
    m := x;
    if s != {x} {
      var n := MaximumOf(s - {x});
      m := if x < n then n else x;
      assert forall a :: a in s ==> a == x || a in s - {x};
    }
  }

  lemma {:induction false} SortAscending(s: set<Address>) returns (a: seq<Address>)
    ensures Ascending(a) && Addresses(a) == s && |a| == |s|
  {
    if s == {} {
      a := [];
    } else {
      var m := MaximumOf(s);
      var rest := SortAscending(s - {m});
      a := rest + [m];
      assert forall i :: 0 <= i < |rest| ==> rest[i] in Addresses(rest);
      assert Addresses(a) == Addresses(rest) + {m};
    }
  }

  // What is assumed of the chain's signatures: each listed signer has a key that can sign any digest.
  ghost predicate ListedCanSign(dep: Deployment, signers: seq<Address>) {
    forall a, d: Digest {:trigger CanSign(dep, d, a)} :: a in signers ==> CanSign(dep, d, a)
  }

  ghost predicate CanSign(dep: Deployment, d: Digest, a: Address) {
    exists v: nat, r: nat, s: nat :: (v == 27 || v == 28) && s <= HALF_CURVE_ORDER && dep.ecrecover(d, v, r, s) == a
  }

  lemma {:induction false} SignAll(dep: Deployment, d: Digest, signers: seq<Address>) returns (sigs: seq<Signature>)
    requires forall i :: 0 <= i < |signers| ==> signers[i] != 0 && CanSign(dep, d, signers[i])
    ensures AllSignedBy(dep, d, sigs, signers)
  {
    if signers == [] {
      sigs := [];
    } else {
      var rest := SignAll(dep, d, signers[..|signers| - 1]);
      var last := signers[|signers| - 1];
      assert CanSign(dep, d, last);
      var v: nat, r: nat, s: nat :| (v == 27 || v == 28) && s <= HALF_CURVE_ORDER && dep.ecrecover(d, v, r, s) == last;
      sigs := rest + [Signature(r, s, v)];
    }
  }

  // Under the governance invariant the listed signers can always form a quorum.
  lemma QuorumCanBeSigned(dep: Deployment, s: State, d: Digest) returns (sigs: seq<Signature>)
    requires SignersOk(s.isSigner, s.signerList, s.threshold, s.minScore) && ListedCanSign(dep, s.signerList)
    ensures SignedByQuorum(dep, d, sigs, s.isSigner, s.threshold)
  {
    var a := SortAscending(s.isSigner);
    forall i | 0 <= i < |a| ensures a[i] != 0 && a[i] in s.isSigner && CanSign(dep, d, a[i]) {
      assert a[i] in Addresses(a);
    }
    DistinctCountsOnce(s.signerList);
    sigs := SignAll(dep, d, a);
  }
}
