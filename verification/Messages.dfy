/** The values replicas exchange (src/message.rs) and the data they sign (src/pbft.rs). */
module Messages {

  datatype Option<+T> = None | Some(value: T)

  newtype Byte = x: int | 0 <= x < 256

  type NodeId = string
  type Signature = seq<Byte>

  datatype Hash = Hash(bytes: seq<Byte>)

  /** A client request. */
  datatype Request = Request(clientId: string, timestamp: nat, operation: seq<Byte>)

  datatype PrePrepare = PrePrepare(view: nat, sequence: nat, digest: Hash, request: Request,
                                   primaryId: NodeId, signature: Signature)

  datatype Prepare = Prepare(view: nat, sequence: nat, digest: Hash, replicaId: NodeId, signature: Signature)

  datatype Commit = Commit(view: nat, sequence: nat, digest: Hash, replicaId: NodeId, signature: Signature)

  datatype ViewChange = ViewChange(newView: nat, replicaId: NodeId, lastSequence: nat, signature: Signature)

  /** The view changes a new primary collected; they are the values of a hash map, in no order. */
  datatype NewView = NewView(newView: nat, viewChanges: set<ViewChange>, primaryId: NodeId, signature: Signature)

  datatype Checkpoint = Checkpoint(sequence: nat, digest: Hash, replicaId: NodeId, signature: Signature)

  datatype Message =
    | RequestMsg(request: Request)
    | PrePrepareMsg(prePrepare: PrePrepare)
    | PrepareMsg(prepare: Prepare)
    | CommitMsg(commit: Commit)
    | ViewChangeMsg(viewChange: ViewChange)
    | NewViewMsg(newView: NewView)
    | CheckpointMsg(checkpoint: Checkpoint)

  datatype Outgoing =
    | Broadcast(message: Message)
    | SendTo(target: NodeId, message: Message)

  /** What a signature covers. A pre-prepare and a prepare are signed over the same data. */
  datatype SignedData =
    | PrepareData(view: nat, sequence: nat, digest: Hash)
    | CommitData(view: nat, sequence: nat, digest: Hash)
    | CheckpointData(sequence: nat, digest: Hash)
    | NewViewData(newView: nat)
    | ViewChangeData(newView: nat)
}
