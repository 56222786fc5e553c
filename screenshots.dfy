/** The reference path recorded on a step that carries embedded screenshots
    (lib/generator.js, inside the step loop of setStats). Decoding the
    base64 payload and writing the file are not modelled; only the string the
    step ends up holding in `step.image` is. */
module Screenshots {
  import opened JsValues

  /** Prefix of every `step.image` value. */
  const ImageDirectory: string := "./screenshots/"

  /** Extension appended to the scenario name. */
  const Extension: string := ".png"

  /** `s.split(' ').join('_')`: every space becomes an underscore; tabs,
      newlines and every other character are kept as they are. */
  function Underscored(s: string): (r: string)
    ensures |r| == |s|
    ensures forall i :: 0 <= i < |s| ==> r[i] == (if s[i] == ' ' then '_' else s[i])
    ensures forall i :: 0 <= i < |r| ==> r[i] != ' '
  {
    if s == [] then []
    else [if s[0] == ' ' then '_' else s[0]] + Underscored(s[1..])
  }

  /** `name && name.split(' ').join('_')` followed by `+ '.png'`. A missing
      name is falsy and is itself concatenated, which JavaScript renders as
      "undefined"; the empty name is falsy too and yields just ".png". */
  function FileName(name: Option<string>): (r: string)
    ensures |r| >= |Extension| && r[|r| - |Extension|..] == Extension
    ensures name.None? ==> r == "undefined.png"
    ensures name.Some? ==> |r| == |name.value| + |Extension|
    ensures name.Some? ==> forall i :: 0 <= i < |name.value| ==>
      r[i] == (if name.value[i] == ' ' then '_' else name.value[i])
  {
    match name
    case None => "undefined" + Extension
    case Some(s) => Underscored(s) + Extension
  }

  /** The value assigned to `step.image` for every embedding of a step of
      the scenario called `name`. */
  function ImageRef(name: Option<string>): string
  {
    ImageDirectory + FileName(name)
  }

  /** Every image reference lies in the screenshot directory and ends in the
      extension. */
  lemma ImageRefShape(name: Option<string>)
    ensures |ImageRef(name)| >= |ImageDirectory| + |Extension|
    ensures ImageRef(name)[..|ImageDirectory|] == ImageDirectory
    ensures ImageRef(name)[|ImageRef(name)| - |Extension|..] == Extension
  {
    Concatenation(ImageDirectory, FileName(name), |Extension|);
  }

  /** Between the directory and the extension, the image reference of a named
      scenario holds that name with each space replaced by an underscore. */
  lemma ImageRefName(n: string)
    ensures |ImageRef(Some(n))| == |ImageDirectory| + |n| + |Extension|
    ensures forall i :: 0 <= i < |n| ==>
      ImageRef(Some(n))[|ImageDirectory| + i] == (if n[i] == ' ' then '_' else n[i])
  {
    var f := FileName(Some(n));
    Concatenation(ImageDirectory, f, |Extension|);
    forall i | 0 <= i < |n|
      ensures ImageRef(Some(n))[|ImageDirectory| + i] == (if n[i] == ' ' then '_' else n[i])
    {
      assert ImageRef(Some(n))[|ImageDirectory| + i] == f[i];
    }
  }

  /** Where the parts of `d + f` sit in the concatenation. */
  lemma Concatenation(d: string, f: string, k: nat)
    requires k <= |f|
    ensures (d + f)[..|d|] == d
    ensures (d + f)[|d + f| - k..] == f[|f| - k..]
    ensures forall i :: 0 <= i < |f| ==> (d + f)[|d| + i] == f[i]
  {
  }

  /** A step of a scenario without a name points at "undefined.png". */
  lemma MissingNameImageRef()
    ensures ImageRef(None) == "./screenshots/undefined.png"
  {
  }

  /** Worked example: only the space is replaced, the tab survives. */
  lemma UnderscoredKeepsTab()
    ensures Underscored("a b\tc") == "a_b\tc"
  {
    var u := Underscored("a b\tc");
    assert u[0] == 'a' && u[1] == '_' && u[2] == 'b' && u[3] == '\t' && u[4] == 'c';
  }

  /** Two scenarios whose names differ only by a space versus an underscore
      are given the same screenshot path. */
  lemma SpaceAndUnderscoreCollide(a: string, b: string)
    requires |a| == |b|
    requires forall i :: 0 <= i < |a| ==>
      a[i] == b[i] || (a[i] == ' ' && b[i] == '_') || (a[i] == '_' && b[i] == ' ')
    ensures ImageRef(Some(a)) == ImageRef(Some(b))
  {
    assert Underscored(a) == Underscored(b);
  }
}
