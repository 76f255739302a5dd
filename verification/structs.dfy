/**
 * The records the scheduler reads: allocations, their desired transition,
 * nodes, and the `job.group[N]` naming scheme that carries an allocation's
 * index within its task group.
 */
module Structs {
  import opened Wrappers

  /** What the client running an allocation last reported. */
  datatype ClientStatus = Pending | Running | Complete | Failed | Unknown

  /**
   * A node's status. `NodeUnset` is the zero value a node record carries when
   * only its drain strategy was filled in; `NodeUnknown` is a node that has
   * stopped reporting without having been declared down.
   */
  datatype NodeStatus = NodeUnset | NodeInit | NodeReady | NodeDown | NodeUnknown

  /** Upstream policy requests; `migrate` is a nullable boolean. */
  datatype DesiredTransition = DesiredTransition(migrate: Option<bool>) {

    /** A migration is requested only by an explicit `true`. */
    predicate ShouldMigrate() {
      migrate == Some(true)
    }
  }

  datatype Allocation = Allocation(
    id: string,
    jobId: string,
    taskGroup: string,
    name: string,
    clientStatus: ClientStatus,
    desiredStatus: string,
    desiredTransition: DesiredTransition,
    nodeId: string)
  {
    /** Finished work: the client reported completion or failure. */
    predicate Terminal() {
      clientStatus == Complete || clientStatus == Failed
    }

    /** The index encoded in this allocation's name, if the name is well formed. */
    function Index(): Option<nat> {
      NameIndex(jobId, taskGroup, name)
    }
  }

  /**
   * A node record, reduced to the status the classifier reads; a drain
   * strategy reaches the classifier only through the allocation's migrate flag.
   */
  datatype Node = Node(status: NodeStatus)

  // ---------------------------------------------------------------------
  // Decimal numerals

  predicate IsDigit(c: char) {
    '0' <= c <= '9'
  }

  function DigitChar(d: nat): (c: char)
    requires d < 10
    ensures IsDigit(c) && c as int - '0' as int == d
  {
    (d + '0' as int) as char
  }

  /** The shortest decimal numeral of `n` (no leading zeros). */
  function Decimal(n: nat): (s: string)
    ensures |s| > 0
    ensures forall i :: 0 <= i < |s| ==> IsDigit(s[i])
    ensures |s| > 1 ==> s[0] != '0'
  {
    if n < 10 then [DigitChar(n)] else Decimal(n / 10) + [DigitChar(n % 10)]
  }

  /** Reads a non-empty string of decimal digits (leading zeros allowed). */
  function ParseDecimal(s: string): (r: Option<nat>)
    ensures r.Some? <==> |s| > 0 && forall i :: 0 <= i < |s| ==> IsDigit(s[i])
  {
    if |s| == 0 || !IsDigit(s[|s| - 1]) then None
    else
      var d := s[|s| - 1] as int - '0' as int;
      if |s| == 1 then Some(d)
      else match ParseDecimal(s[..|s| - 1])
        case None => None
        case Some(v) => Some(v * 10 + d)
  }

  lemma {:induction false} ParseDecimalOfDecimal(n: nat)
    ensures ParseDecimal(Decimal(n)) == Some(n)
  {
    if n >= 10 {
      var s := Decimal(n);
      ParseDecimalOfDecimal(n / 10);
      assert s[..|s| - 1] == Decimal(n / 10);
    }
  }

  // ---------------------------------------------------------------------
  // Allocation names

  /** The name of the allocation with index `idx` in `group` of `job`: `job.group[idx]`. */
  function AllocName(job: string, group: string, idx: nat): string {
    job + "." + group + "[" + Decimal(idx) + "]"
  }

  /**
   * The index in a name of the form `job.group[N]`; `None` when the name does
   * not have that form, so a malformed name is never read as index 0.
   */
  function NameIndex(job: string, group: string, name: string): Option<nat> {
    var prefix := job + "." + group + "[";
    if |name| > |prefix| && name[..|prefix|] == prefix && name[|name| - 1] == ']'
    then ParseDecimal(name[|prefix|..|name| - 1])
    else None
  }

  /** Reading the index back out of a generated name gives the index it was generated from. */
  lemma NameIndexOfAllocName(job: string, group: string, idx: nat)
    ensures NameIndex(job, group, AllocName(job, group, idx)) == Some(idx)
  {
    var prefix := job + "." + group + "[";
    var name := AllocName(job, group, idx);
    assert name == prefix + Decimal(idx) + "]";
    assert name[..|prefix|] == prefix;
    assert name[|prefix|..|name| - 1] == Decimal(idx);
    ParseDecimalOfDecimal(idx);
  }

  /** A name the index reader accepts is a generated name up to leading zeros in the index. */
  lemma NameIndexSound(job: string, group: string, name: string)
    requires NameIndex(job, group, name).Some?
    ensures exists digits: string ::
      && name == job + "." + group + "[" + digits + "]"
      && ParseDecimal(digits) == NameIndex(job, group, name)
  {
  }
}
