/**
 * Recommendation entries as the evaluator receives them: either a plain
 * assessment name, or a record that may carry an `assessment_name` field.
 */
module Entries {

  datatype Option<+T> = None | Some(value: T) {
    function GetOr(default: T): T {
      match this
      case Some(v) => v
      case None => default
    }
  }

  /** One recommended item: a bare name, or a record with an optional name field. */
  datatype Entry = Name(name: string) | Record(assessmentName: Option<string>)

  /** The name the scorer compares: the string itself, or the record's field, or "" when absent. */
  function NameOf(e: Entry): string {
    match e
    case Name(s) => s
    case Record(field) => field.GetOr("")
  }

  /** The names of a list of entries, position by position. */
  function Names(es: seq<Entry>): (ns: seq<string>)
    ensures |ns| == |es|
  {
    seq(|es|, i requires 0 <= i < |es| => NameOf(es[i]))
  }

  /** Plain-string entries, the shape the second metrics module works on. */
  function Plain(names: seq<string>): (es: seq<Entry>)
    ensures |es| == |names|
  {
    seq(|names|, i requires 0 <= i < |names| => Name(names[i]))
  }

  /** Reading the names back from plain-string entries gives the strings themselves. */
  lemma NamesOfPlain(names: seq<string>)
    ensures Names(Plain(names)) == names
  {
  }
}
