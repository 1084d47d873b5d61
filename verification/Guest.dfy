/** The guest program as it runs: both decoders, the replay loop and the commitment loop in turn. */
module Guest {
  import opened Types
  import opened Transactions
  import opened Chains
  import opened Replay
  import opened Execution
  import Wire
  import SidecarWire
  import BatchCodec
  import SidecarCodec

  method RunGuest(c: Crypto, wire: DigestWire, domain: DeploymentDomain, priorRoot: Digest, anchor: Digest,
                  batchBytes: seq<byte>, sidecarBytes: seq<byte>) returns (r: Result<PublicValues, ExecutionError>)
    ensures r == Execute(c, wire, domain, priorRoot, anchor, batchBytes, sidecarBytes)
  {
    hide BatchCodec.DecodeBatch, SidecarCodec.DecodeSidecar, VerifyBatch, BatchCommitment;
    var batch := Wire.Decode(batchBytes);
    if batch.Err? {
      return Err(Decode(batch.error));
    }
    var sidecar := SidecarWire.Decode(wire, sidecarBytes, batch.value);
    if sidecar.Err? {
      return Err(Decode(sidecar.error));
    }
    var landing := ReplayBatch(c, domain, priorRoot, anchor, batch.value, sidecar.value);
    if landing.Err? {
      return Err(Verification(landing.error));
    }
    var commitment := ComputeBatchCommitment(domain, batchBytes);
    var Landing(root, inboxChain, withdrawalChain) := landing.value;
    return Ok(PublicValues(priorRoot, root, commitment, anchor, inboxChain, withdrawalChain));
  }
}
