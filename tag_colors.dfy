/** The tag palette of src/lib/tagColors.ts: eight named colours, in order. */
module TagColors {

  /** `TAG_COLOR_KEYS`, in the order the palette declares them. */
  const TagColorKeys: seq<string> :=
    ["red", "orange", "yellow", "green", "teal", "blue", "purple", "pink"]

  /** `TAG_COLORS`: each key with its hex colour. */
  const TagColorHex: map<string, string> := map[
    "red" := "#ef4444", "orange" := "#f97316", "yellow" := "#eab308",
    "green" := "#22c55e", "teal" := "#14b8a6", "blue" := "#3b82f6",
    "purple" := "#a855f7", "pink" := "#ec4899"]

  /** `TagColorKey`: a key of the palette. */
  type TagColorKey = s: string | s in TagColorKeys witness "blue"

  /** The colour a new tag starts with. */
  const DefaultTagColor: TagColorKey := "blue"

  /** The palette lists eight distinct keys, exactly the keys of the colour
      map, and the default colour is one of them. */
  lemma PaletteWellFormed()
    ensures |TagColorKeys| == 8
    ensures forall i, j :: 0 <= i < j < |TagColorKeys| ==> TagColorKeys[i] != TagColorKeys[j]
    ensures forall k :: k in TagColorHex <==> k in TagColorKeys
    ensures DefaultTagColor in TagColorKeys
  {
  }
}
