/** Source text, declaration addresses and the immutable target of one open proof. */
module Sources {
  import opened Outcomes

  newtype byte = x: int | 0 <= x < 256

  type Text = seq<byte>
  type File = string

  datatype Kind = Theorem | Lemma | Fact | Remark | Corollary | Proposition | Definition

  /** A half-open byte range. */
  datatype Range = Range(start: nat, end: nat)

  /**
   * What an open proof needs to be replayed and published. `source` is the exact file the ranges
   * were read against: the digest kept by the program is taken to be injective.
   */
  datatype Target = Target(
    name: seq<string>,
    kind: Kind,
    statement: Text,
    file: File,
    source: Text,
    header: Range,
    declaration: Range,
    soleOwner: bool,
    newHeader: Option<Text>)

  /**
   * One assumption of a finished proof: whether it is an axiom at all, its full path, and the project
   * file Dune's layout assigns that path to, if any.
   */
  datatype Assumption = Assumption(axiom: bool, path: seq<string>, home: Option<File>)

  datatype Report = Report(unsafeTheory: bool, assumptions: seq<Assumption>)
}
