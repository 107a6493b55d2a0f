/** The record the ensemble design is built around, and the runtime values a
    parameter can take. */
module ParamData {

  /** A parameter value as Python holds it at run time: file parameters carry
      a string, executable-argument parameters carry a list of strings. */
  datatype Value = Str(text: string) | StrList(items: seq<string>)

  /** The `ParamSet` dataclass: file parameters first, executable-argument
      parameters second, both defaulting to an empty dictionary. Equality is
      the field-wise equality a dataclass generates. */
  datatype ParamSet = ParamSet(
    params: map<string, string> := map[],
    exeArgs: map<string, seq<string>> := map[]
  )

  /** Omitting a field gives an empty dictionary for it. */
  lemma ParamSetDefaults(p: map<string, string>, e: map<string, seq<string>>)
    ensures ParamSet().params == map[] && ParamSet().exeArgs == map[]
    ensures ParamSet(p).params == p && ParamSet(p).exeArgs == map[]
    ensures ParamSet(exeArgs := e).params == map[] && ParamSet(exeArgs := e).exeArgs == e
  {
  }

  /** Two parameter sets are equal exactly when both fields are equal. */
  lemma ParamSetEquality(a: ParamSet, b: ParamSet)
    ensures a == b <==> a.params == b.params && a.exeArgs == b.exeArgs
  {
  }

  /** Positional construction puts the file parameters first. */
  lemma ParamSetPositional(p: map<string, string>, e: map<string, seq<string>>)
    ensures ParamSet(p, e) == ParamSet(params := p, exeArgs := e)
    ensures p != map[] ==> ParamSet(p, map[]) != ParamSet(map[], map[])
  {
  }
}
