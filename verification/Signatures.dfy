/** Signatures are made over printed strings; that nobody else can make them for a correct
    replica carries over from the strings to the data, because printing is unambiguous. */
module Signatures {
  import opened Messages
  import opened Protocol
  import opened Runs
  import Encoding

  /** The verification of a datum is that of the string it is printed as. */
  ghost predicate VerifiesStrings(env: Env, verifyString: (NodeId, string, Signature) -> bool) {
    forall k, data, signature ::
      env.verify(k, data, signature) <==> verifyString(k, Encoding.Encode(data), signature)
  }

  datatype Credential = Credential(signer: NodeId, data: SignedData, signature: Signature)

  /** The signature that the handler of a message verifies. */
  function CredentialOf(e: Event): Option<Credential> {
    match e
    case RecvPrePrepare(pp) =>
      Some(Credential(pp.primaryId, PrepareData(pp.view, pp.sequence, pp.digest), pp.signature))
    case RecvPrepare(p) => Some(Credential(p.replicaId, PrepareData(p.view, p.sequence, p.digest), p.signature))
    case RecvCommit(c) => Some(Credential(c.replicaId, CommitData(c.view, c.sequence, c.digest), c.signature))
    case _ => None
  }

  /** If the string verifies for a correct replica then that replica has signed this string. */
  ghost predicate StringGenuine(verifyString: (NodeId, string, Signature) -> bool, sys: System, e: Event) {
    CredentialOf(e).Some? ==>
      var c := CredentialOf(e).value;
      var text := Encoding.Encode(c.data);
      c.signer in sys && verifyString(c.signer, text, c.signature) ==>
        exists data :: data in sys[c.signer].signed && Encoding.Encode(data) == text
  }

  /** A message is genuine on the level of strings exactly if it is on the level of data: no
      signature made for one purpose, number, view or digest passes for another. */
  lemma StringsStandForData(env: Env, verifyString: (NodeId, string, Signature) -> bool, sys: System, e: Event)
    requires VerifiesStrings(env, verifyString)
    ensures StringGenuine(verifyString, sys, e) <==> Genuine(env, sys, e)
  {
    if CredentialOf(e).Some? {
      var c := CredentialOf(e).value;
      var text := Encoding.Encode(c.data);
      assert env.verify(c.signer, c.data, c.signature) <==> verifyString(c.signer, text, c.signature);
      if c.signer in sys {
        forall data | data in sys[c.signer].signed && Encoding.Encode(data) == text ensures data == c.data {
          Encoding.EncodeInjective(data, c.data);
        }
      }
    }
  }
}
