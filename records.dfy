/**
 * The records the indexer stores: the caller's context, one function record
 * per instruction and a list of flattened property records.
 */
module Records {
  import opened Integers

  /** The block time of the transaction; only ever copied. */
  datatype Timestamp = Timestamp(seconds: int, nanoseconds: nat)

  /** What the caller knows about the instruction being projected. */
  datatype Context = Context(
    transactionHash: string,
    instructionIndex: i16,
    parentIndex: i16,
    timestamp: Timestamp,
    program: string)

  /** Which operation an instruction performs. */
  datatype InstructionFunction = InstructionFunction(
    txInstructionId: i16,
    transactionHash: string,
    parentIndex: i16,
    program: string,
    functionName: string,
    timestamp: Timestamp)

  /** One flattened field: its name, its text and the path of its enclosing structure. */
  datatype InstructionProperty = InstructionProperty(
    txInstructionId: i16,
    transactionHash: string,
    parentIndex: i16,
    key: string,
    value: string,
    parentKey: string,
    timestamp: Timestamp)

  datatype InstructionSet = InstructionSet(
    func: InstructionFunction,
    properties: seq<InstructionProperty>)

  /** The function record carries the caller's identifiers unchanged. */
  predicate FunctionEchoes(f: InstructionFunction, ctx: Context) {
    && f.txInstructionId == ctx.instructionIndex
    && f.transactionHash == ctx.transactionHash
    && f.parentIndex == ctx.parentIndex
    && f.program == ctx.program
    && f.timestamp == ctx.timestamp
  }

  /** The property record carries the caller's identifiers unchanged. */
  predicate PropertyEchoes(p: InstructionProperty, ctx: Context) {
    && p.txInstructionId == ctx.instructionIndex
    && p.transactionHash == ctx.transactionHash
    && p.parentIndex == ctx.parentIndex
    && p.timestamp == ctx.timestamp
  }

  /** The (key, parent_key) pairs of a property list, in order. */
  function Schema(ps: seq<InstructionProperty>): (r: seq<(string, string)>)
    ensures |r| == |ps|
    ensures forall i :: 0 <= i < |ps| ==> r[i] == (ps[i].key, ps[i].parentKey)
  {
    seq(|ps|, i requires 0 <= i < |ps| => (ps[i].key, ps[i].parentKey))
  }
}
