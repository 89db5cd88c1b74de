/** The file-name helper of the media-projection screen recorder. */
module MediaProjection {
  import opened Text

  const DEFAULT_EXT := ".mp4"

  /** The recording's file name: ".mp4" is appended unless the name already ends with it in any letter case. */
  function AdjustMediaExtension(name: string): (r: string)
    ensures EndsWith(ToLowerAscii(r), DEFAULT_EXT)
    ensures StartsWith(r, name) && |r| <= |name| + |DEFAULT_EXT|
    ensures r == name <==> EndsWith(ToLowerAscii(name), DEFAULT_EXT)
  {
    if EndsWith(ToLowerAscii(name), DEFAULT_EXT) then name
    else
      LowerConcat(name, DEFAULT_EXT);
      assert ToLowerAscii(DEFAULT_EXT) == DEFAULT_EXT;
      assert (name + DEFAULT_EXT)[..|name|] == name;
      name + DEFAULT_EXT
  }

  /** Adjusting twice is adjusting once. */
  lemma AdjustIdempotent(name: string)
    ensures AdjustMediaExtension(AdjustMediaExtension(name)) == AdjustMediaExtension(name)
  {
  }

  /** A name with an upper-case extension is kept as it is. */
  lemma UpperCaseExtensionKept()
    ensures AdjustMediaExtension("clip.MP4") == "clip.MP4"
  {
    assert ToLowerAscii("clip.MP4") == "clip.mp4";
  }

  /** A name with another extension gets ".mp4" after it. */
  lemma OtherExtensionExtended()
    ensures AdjustMediaExtension("clip.avi") == "clip.avi.mp4"
  {
    assert ToLowerAscii("clip.avi")[4..] != DEFAULT_EXT;
  }
}
