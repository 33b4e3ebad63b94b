/** `getWrite`, the runtime helper that decides where the writes of a
    template, section or cutout go (lib/exec_utils.js:3-13). */
module ExecUtils {
  import opened Text

  /** The write callback `getWrite` returns: `output(null, text)`,
      `output(name, text)`, the inherited `parentWrite`, or a function that
      drops the text. */
  datatype WriteTarget = Main | Cutout(name: string) | Parent | Discard

  /** JavaScript truthiness of a cutout name: null and "" are false. */
  predicate NameGiven(name: Option<string>) {
    name.Some? && name.value != ""
  }

  /** Whether the set of cutouts to render (an object, always truthy when
      present) holds `name` with a truthy value. */
  predicate Requested(active: map<string, bool>, name: string) {
    name in active && active[name]
  }

  /** `getWrite(snippetName, snippets, output, parentWrite)`, with the set
      of cutouts `snippets` as an optional map and `parentWrite` reduced to
      whether one is provided. */
  function GetWrite(name: Option<string>, snippets: Option<map<string, bool>>, hasParentWrite: bool): (r: WriteTarget)
    ensures r.Cutout? ==> snippets.Some? && name == Some(r.name) && Requested(snippets.value, r.name)
    ensures r == Main <==> snippets.None?
    ensures r == Discard ==> !hasParentWrite
  {
    if snippets.None? then Main
    else if NameGiven(name) && Requested(snippets.value, name.value) then Cutout(name.value)
    else if hasParentWrite then Parent
    else Discard
  }

  /** The four outcomes, each with the inputs that lead to it. */
  lemma GetWriteCases(name: Option<string>, snippets: Option<map<string, bool>>, hasParentWrite: bool)
    ensures snippets.None? ==> GetWrite(name, snippets, hasParentWrite) == Main
    ensures snippets.Some? && NameGiven(name) && Requested(snippets.value, name.value) ==>
      GetWrite(name, snippets, hasParentWrite) == Cutout(name.value)
    ensures snippets.Some? && !(NameGiven(name) && Requested(snippets.value, name.value)) ==>
      GetWrite(name, snippets, hasParentWrite) == if hasParentWrite then Parent else Discard
  {
  }

  /** Writes never go under a name that is not in the set of cutouts to
      render, and never under the empty name. */
  lemma NeverUnrequestedCutout(name: Option<string>, snippets: Option<map<string, bool>>, hasParentWrite: bool, n: string)
    requires snippets.Some? && !Requested(snippets.value, n)
    ensures GetWrite(name, snippets, hasParentWrite) != Cutout(n)
    ensures GetWrite(name, snippets, hasParentWrite) != Cutout("")
  {
  }
}
