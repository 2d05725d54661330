/**
 Per-process metadata: a copy of the shared process-metadata template in which
 every string value has `[COMMODITY]` and then `[SCTG]` replaced.
 */
module Metadata {
  import Text

  /**
   A value of the metadata template: a string, or any other value (a list, a
   nested dict, a number), which is only ever copied.
   */
  datatype Value = Str(text: string) | NonText(handle: nat)

  type Meta = map<string, Value>

  const CommodityTag := "[COMMODITY]"
  const SctgTag := "[SCTG]"

  /** Neither placeholder occurs in `text`. */
  predicate Untagged(text: string) {
    Text.Free(text, CommodityTag) && Text.Free(text, SctgTag)
  }

  /** `value.replace('[COMMODITY]', commodity).replace('[SCTG]', sctg)`. */
  function Substitute(text: string, commodity: string, sctg: string): (r: string)
    ensures Untagged(text) ==> r == text
    ensures |commodity| == |CommodityTag| && |sctg| == |SctgTag| ==> |r| == |text|
  {
    var r := Text.ReplaceAll(Text.ReplaceAll(text, CommodityTag, commodity), SctgTag, sctg);
    assert Untagged(text) ==> r == text by {
      if Untagged(text) {
        Text.ReplaceAllOfFreeIsIdentity(text, CommodityTag, commodity);
        Text.ReplaceAllOfFreeIsIdentity(text, SctgTag, sctg);
      }
    }
    r
  }

  /**
   The placeholder loop run on a fresh copy of the template: the keys are
   kept, non-string values are kept, string values stay strings, and a string
   holding neither placeholder is kept as it is.
   */
  function Render(template: Meta, commodity: string, sctg: string): (meta: Meta)
    ensures meta.Keys == template.Keys
    ensures forall k :: k in template ==> (meta[k].Str? <==> template[k].Str?)
    ensures forall k :: k in template && template[k].NonText? ==> meta[k] == template[k]
    ensures forall k :: k in template && template[k].Str? && Untagged(template[k].text) ==> meta[k] == template[k]
  {
    map k | k in template ::
      match template[k]
      case Str(t) => Str(Substitute(t, commodity, sctg))
      case NonText(h) => NonText(h)
  }

  /**
   Every occurrence of `[COMMODITY]` is replaced first, then every occurrence
   of `[SCTG]` in the result: each string value is cut at its `[COMMODITY]`
   occurrences into pieces free of that tag, rejoined with the commodity, and
   the outcome is cut at its `[SCTG]` occurrences and rejoined with the code.
   */
  lemma {:induction false} RenderReplacesEveryTag(template: Meta, commodity: string, sctg: string, k: string)
    requires k in template && template[k].Str?
    ensures var text := template[k].text;
            var pieces := Text.Split(text, CommodityTag);
            var middle := Text.Join(pieces, commodity);
            var parts := Text.Split(middle, SctgTag);
            && Text.Join(pieces, CommodityTag) == text
            && (forall i :: 0 <= i < |pieces| ==> Text.Free(pieces[i], CommodityTag))
            && Text.Join(parts, SctgTag) == middle
            && (forall i :: 0 <= i < |parts| ==> Text.Free(parts[i], SctgTag))
            && Render(template, commodity, sctg)[k] == Str(Text.Join(parts, sctg))
  {
    var text := template[k].text;
    var middle := Text.ReplaceAll(text, CommodityTag, commodity);
    Text.ReplaceAllIsJoinOfSplit(text, CommodityTag, commodity);
    Text.ReplaceAllIsJoinOfSplit(middle, SctgTag, sctg);
    Text.SplitJoinRoundTrip(text, CommodityTag);
    Text.SplitJoinRoundTrip(middle, SctgTag);
  }
}
