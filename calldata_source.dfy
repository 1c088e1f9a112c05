/** The calldata data source: a cursor over the data extracted from one L1
    block's batcher transactions, which retries the block fetch while it is
    not open, and the batch-inbox filter that extracts that data. Signature
    recovery, protobuf decoding of calldata frames and EigenDA blob
    retrieval are oracles. */
module CalldataSource {
  import opened Wrappers
  import opened ByteCodec
  import opened GoErrors

  /** An L1 transaction, reduced to its recipient and calldata; `index`
      distinguishes transactions with equal contents. */
  datatype Tx = Tx(index: nat, to: Option<Address>, data: Bytes)

  /** The decoded `CalldataFrame`: a reference to an EigenDA blob, an inline
      frame, or neither. */
  datatype CalldataFrame =
    | FrameRef(batchHeaderHash: Bytes, blobIndex: Uint32, referenceBlockNumber: Uint32,
               quorumIds: seq<Uint32>, blobLength: Uint32)
    | Frame(frame: Bytes)
    | NoValue

  /** The EigenDA retrieval request built from a frame reference. */
  datatype BlobRequest = BlobRequest(batchHeaderHash: Bytes, blobIndex: Uint32, referenceBlockNumber: Uint32, quorumId: Uint32)

  /** The configuration and the oracles the filter consults. */
  datatype Env = Env(
    batchInboxAddress: Address,
    sender: Tx -> Result<Address, Error>,
    unmarshal: Bytes -> Result<CalldataFrame, Error>,
    retrieveBlob: BlobRequest -> Result<Bytes, Error>)

  /** What one transaction contributes to the output. */
  datatype Contribution =
    | Ignored
    | Appended(items: seq<Bytes>)
    | Aborted
    | OutOfRange  // the blob is shorter than its declared length: the slice panics

  /** A transaction the filter looks at: sent to the batch inbox by the batcher. */
  predicate Accepted(env: Env, batcherAddr: Address, tx: Tx) {
    tx.to == Some(env.batchInboxAddress) &&
    env.sender(tx).Success? && env.sender(tx).value == batcherAddr
  }

  /** The loop body for one transaction. */
  function TxContribution(env: Env, batcherAddr: Address, tx: Tx): (c: Contribution)
    ensures c.Ignored? <==> !Accepted(env, batcherAddr, tx)
    ensures c.Aborted? <==>
              Accepted(env, batcherAddr, tx) &&
              (env.unmarshal(tx.data).Failure? ||
               (env.unmarshal(tx.data).value.FrameRef? &&
                (env.unmarshal(tx.data).value.quorumIds == [] ||
                 env.retrieveBlob(RequestFor(env.unmarshal(tx.data).value)).Failure?)))
    // each accepted frame contributes its payload and then the raw calldata
    ensures c.Appended? ==> |c.items| >= 1 && c.items[|c.items| - 1] == tx.data
    ensures c.Appended? && env.unmarshal(tx.data).value.Frame? ==> c.items == [env.unmarshal(tx.data).value.frame, tx.data]
    ensures c.Appended? && env.unmarshal(tx.data).value.NoValue? ==> c.items == [tx.data]
    ensures c.Appended? && env.unmarshal(tx.data).value.FrameRef? ==>
              var blob := env.retrieveBlob(RequestFor(env.unmarshal(tx.data).value)).value;
              env.unmarshal(tx.data).value.blobLength <= |blob| &&
              c.items == [blob[..env.unmarshal(tx.data).value.blobLength], tx.data]
  {
    if !Accepted(env, batcherAddr, tx) then Ignored
    else match env.unmarshal(tx.data)
      case Failure(_) => Aborted
      case Success(frame) =>
        match frame
        case FrameRef(_, _, _, quorumIds, blobLength) =>
          if quorumIds == [] then Aborted
          else (
            match env.retrieveBlob(RequestFor(frame))
            case Failure(_) => Aborted
            case Success(blob) =>
              if blobLength > |blob| then OutOfRange
              else Appended([blob[..blobLength], tx.data]))
        case Frame(payload) => Appended([payload, tx.data])
        case NoValue => Appended([tx.data])
  }

  function RequestFor(frame: CalldataFrame): (r: BlobRequest)
    requires frame.FrameRef? && frame.quorumIds != []
    ensures r.quorumId == frame.quorumIds[0] && r.batchHeaderHash == frame.batchHeaderHash
  {
    BlobRequest(frame.batchHeaderHash, frame.blobIndex, frame.referenceBlockNumber, frame.quorumIds[0])
  }

  /** The outcome of the filter over a list of transactions. */
  datatype Extraction = Items(out: seq<Bytes>) | Abort | Panic

  /** One transaction's contribution followed by the outcome on the rest:
      an abort or a panic ends the filter. */
  function Combine(c: Contribution, rest: Extraction): Extraction {
    match c
    case Ignored => rest
    case Aborted => Abort
    case OutOfRange => Panic
    case Appended(items) => Then(items, rest)
  }

  /** `DataFromEVMTransactions`, specified over the transaction list. */
  function Extract(env: Env, batcherAddr: Address, txs: seq<Tx>): Extraction {
    if txs == [] then Items([])
    else Combine(TxContribution(env, batcherAddr, txs[0]), Extract(env, batcherAddr, txs[1..]))
  }

  /** The data the source is left with: an aborted extraction returns nil,
      which is no data at all. */
  function DataOf(e: Extraction): seq<Bytes>
    requires !e.Panic?
  {
    if e.Items? then e.out else []
  }

  /** Extending the output produced so far with the outcome of the rest. */
  function Then(out: seq<Bytes>, e: Extraction): Extraction {
    match e
    case Items(rest) => Items(out + rest)
    case Abort => Abort
    case Panic => Panic
  }

  lemma ThenAssociates(out: seq<Bytes>, items: seq<Bytes>, e: Extraction)
    ensures Then(out, Then(items, e)) == Then(out + items, e)
  {
    if e.Items? {
      assert out + (items + e.out) == (out + items) + e.out;
    }
  }

  /** Transactions that are not sent to the inbox by the batcher change nothing. */
  lemma {:induction false} IgnoredTxIrrelevant(env: Env, batcherAddr: Address, txs: seq<Tx>, k: nat)
    requires k < |txs| && !Accepted(env, batcherAddr, txs[k])
    ensures Extract(env, batcherAddr, txs[..k] + txs[k + 1..]) == Extract(env, batcherAddr, txs)
  {
    if k == 0 {
      assert txs[..0] + txs[1..] == txs[1..];
    } else {
      var rest := txs[1..];
      var without := txs[..k] + txs[k + 1..];
      IgnoredTxIrrelevant(env, batcherAddr, rest, k - 1);
      assert without[0] == txs[0];
      assert without[1..] == rest[..k - 1] + rest[k..];
      assert Extract(env, batcherAddr, without[1..]) == Extract(env, batcherAddr, rest);
    }
  }

  /** With no accepted transaction the output is empty. */
  lemma {:induction false} NothingAcceptedNothingOut(env: Env, batcherAddr: Address, txs: seq<Tx>)
    requires forall i | 0 <= i < |txs| :: !Accepted(env, batcherAddr, txs[i])
    ensures Extract(env, batcherAddr, txs) == Items([])
  {
    if txs != [] {
      assert forall i | 0 <= i < |txs[1..]| :: txs[1..][i] == txs[i + 1];
      NothingAcceptedNothingOut(env, batcherAddr, txs[1..]);
    }
  }

  /** An aborting transaction discards whatever earlier transactions produced. */
  lemma {:induction false} AbortDiscardsEarlier(env: Env, batcherAddr: Address, txs: seq<Tx>, k: nat)
    requires k < |txs| && TxContribution(env, batcherAddr, txs[k]).Aborted?
    requires forall i | 0 <= i < k :: var c := TxContribution(env, batcherAddr, txs[i]); c.Ignored? || c.Appended?
    ensures Extract(env, batcherAddr, txs) == Abort
    ensures DataOf(Extract(env, batcherAddr, txs)) == []
  {
    if k > 0 {
      assert forall i | 0 <= i < k - 1 :: txs[1..][i] == txs[i + 1];
      AbortDiscardsEarlier(env, batcherAddr, txs[1..], k - 1);
    }
  }

  /** `DataFromEVMTransactions`: the filter loop. */
  method DataFromEVMTransactions(env: Env, batcherAddr: Address, txs: seq<Tx>) returns (e: Extraction)
    ensures e == Extract(env, batcherAddr, txs)
  {
    var out: seq<Bytes> := [];
    var j := 0;
    while j < |txs|
      invariant 0 <= j <= |txs|
      invariant Extract(env, batcherAddr, txs) == Then(out, Extract(env, batcherAddr, txs[j..]))
    {
      assert txs[j..][1..] == txs[j + 1..];
      var tx := txs[j];
      if tx.to == Some(env.batchInboxAddress) {
        var submitter := env.sender(tx);
        if submitter.Success? && submitter.value == batcherAddr {
          ghost var before := out;
          var decoded := env.unmarshal(tx.data);
          if decoded.Failure? {
            return Abort;
          }
          var frame := decoded.value;
          match frame {
            case FrameRef(_, _, _, quorumIds, blobLength) =>
              if quorumIds == [] {
                return Abort;
              }
              var blob := env.retrieveBlob(RequestFor(frame));
              if blob.Failure? {
                return Abort;
              }
              if blobLength > |blob.value| {
                return Panic;
              }
              out := out + [blob.value[..blobLength]];
            case Frame(payload) =>
              out := out + [payload];
            case NoValue =>
          }
          out := out + [tx.data];
          assert out == before + TxContribution(env, batcherAddr, tx).items;
          ThenAssociates(before, TxContribution(env, batcherAddr, tx).items, Extract(env, batcherAddr, txs[j + 1..]));
        }
      }
      j := j + 1;
    }
    assert txs[j..] == [];
    assert out + [] == out;
    return Items(out);
  }

  /** `ethereum.NotFound`, the fetcher's error for an unknown block. */
  const NotFound: Error := Sentinel("ethereum.NotFound")
  const OpenFailed: string := "failed to open calldata source"

  /** What `Next` returns: a piece of data, `io.EOF`, a reset or a temporary
      error, or a panic raised while extracting the data. */
  datatype NextResult =
    | Data(data: Bytes)
    | EndOfData
    | ResetErr(cause: Error)
    | TemporaryErr(cause: Error)
    | Panicked

  /** `DataSource`. The block fetch is an oracle: each call that fetches is
      handed the fetcher's answer for this block as `fetched`. */
  class DataSource {
    const env: Env
    const id: Hash
    const batcherAddr: Address
    var open: bool
    var data: seq<Bytes>

    constructor (env: Env, id: Hash, batcherAddr: Address, open: bool, data: seq<Bytes>)
      ensures this.env == env && this.id == id && this.batcherAddr == batcherAddr
      ensures this.open == open && this.data == data
    {
      this.env := env;
      this.id := id;
      this.batcherAddr := batcherAddr;
      this.open := open;
      this.data := data;
    }

    /** `Next`: an unopened source first fetches its block; once open it
        hands out the extracted data front to back and then `io.EOF`. */
    method Next(fetched: Result<seq<Tx>, Error>) returns (r: NextResult)
      modifies this`open, this`data
      // an open source is a queue
      ensures old(open) && old(data) == [] ==> r == EndOfData && open && data == []
      ensures old(open) && old(data) != [] ==>
                r == Data(old(data)[0]) && open && data == old(data)[1..]
      // a failed fetch leaves the source closed, and a missing block asks for a reset
      ensures !old(open) && fetched.Failure? ==>
                !open && data == old(data) &&
                r == (if Is(fetched.error, NotFound) then ResetErr(Wrapped(OpenFailed, fetched.error))
                      else TemporaryErr(Wrapped(OpenFailed, fetched.error)))
      // a successful fetch opens the source on the extracted data
      ensures !old(open) && fetched.Success? ==>
                var e := Extract(env, batcherAddr, fetched.value);
                open &&
                (e.Panic? ==> r == Panicked && data == old(data)) &&
                (!e.Panic? && DataOf(e) == [] ==> r == EndOfData && data == []) &&
                (!e.Panic? && DataOf(e) != [] ==> r == Data(DataOf(e)[0]) && data == DataOf(e)[1..])
    {
      if !open {
        if fetched.Success? {
          open := true;
          var e := DataFromEVMTransactions(env, batcherAddr, fetched.value);
          if e.Panic? {
            return Panicked;
          }
          data := DataOf(e);
        } else if Is(fetched.error, NotFound) {
          return ResetErr(Wrapped(OpenFailed, fetched.error));
        } else {
          return TemporaryErr(Wrapped(OpenFailed, fetched.error));
        }
      }
      if |data| == 0 {
        r := EndOfData;
      } else {
        r := Data(data[0]);
        data := data[1..];
      }
    }
  }

  /** `NewDataSource`: a failed fetch yields an unopened source that retries
      in `Next`; a successful one yields an open source holding the extracted
      data. Null stands for the panic the extraction can raise. */
  method NewDataSource(env: Env, fetched: Result<seq<Tx>, Error>, block: Hash, batcherAddr: Address)
    returns (ds: DataSource?)
    ensures ds == null <==> fetched.Success? && Extract(env, batcherAddr, fetched.value).Panic?
    ensures ds != null ==> fresh(ds) && ds.env == env && ds.open == fetched.Success?
    ensures ds != null && fetched.Failure? ==> ds.data == [] && ds.id == block && ds.batcherAddr == batcherAddr
    ensures ds != null && fetched.Success? ==> ds.data == DataOf(Extract(env, batcherAddr, fetched.value))
  {
    if fetched.Failure? {
      ds := new DataSource(env, block, batcherAddr, false, []);
    } else {
      var e := DataFromEVMTransactions(env, batcherAddr, fetched.value);
      if e.Panic? {
        return null;
      }
      ds := new DataSource(env, block, batcherAddr, true, DataOf(e));
    }
  }

  /** The outcome on a whole list, from the outcome on a prefix. */
  function Sequence(first: Extraction, second: Extraction): Extraction {
    match first
    case Items(out) => Then(out, second)
    case Abort => Abort
    case Panic => Panic
  }

  /** Extraction works transaction by transaction: a list split in two
      extracts as its first part followed by its second, so data keeps the
      transactions' order. */
  lemma {:induction false} ExtractConcat(env: Env, batcherAddr: Address, a: seq<Tx>, b: seq<Tx>)
    ensures Extract(env, batcherAddr, a + b) == Sequence(Extract(env, batcherAddr, a), Extract(env, batcherAddr, b))
  {
    if a == [] {
      assert a + b == b;
      assert Then([], Extract(env, batcherAddr, b)) == Extract(env, batcherAddr, b) by {
        if Extract(env, batcherAddr, b).Items? {
          assert [] + Extract(env, batcherAddr, b).out == Extract(env, batcherAddr, b).out;
        }
      }
    } else {
      assert (a + b)[0] == a[0];
      assert (a + b)[1..] == a[1..] + b;
      ExtractConcat(env, batcherAddr, a[1..], b);
      var c := TxContribution(env, batcherAddr, a[0]);
      if c.Appended? {
        var rest := Extract(env, batcherAddr, a[1..]);
        if rest.Items? {
          ThenAssociates(c.items, rest.out, Extract(env, batcherAddr, b));
        }
      }
    }
  }
}
