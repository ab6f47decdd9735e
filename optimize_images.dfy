/**
 * The image build step: its configuration (defaults overridden by the given
 * options), which files of the input directory count as images, the names
 * of the responsive variants it writes (copies of the original, never
 * overwriting), and the reported size and savings. The file system is the
 * `OutputDir` map and the `exists`/`files` parameters; number formatting
 * (`toFixed`) is a parameter.
 */
module OptimizeImages {
  import opened Wrappers
  import opened Text
  import opened Browser

  datatype Config = Config(inputDir: string, outputDir: string, formats: seq<string>, widths: seq<nat>, quality: int)

  const DefaultConfig := Config("src/assets/images", "public/images", ["webp", "jpeg", "png"],
    [320, 640, 1024, 1280, 1920], 80)

  /** The options given to the constructor: each one present or absent. */
  datatype Options = Options(inputDir: Option<string>, outputDir: Option<string>, formats: Option<seq<string>>,
                             widths: Option<seq<nat>>, quality: Option<int>)

  /** `{ ...defaultConfig, ...config }`: every given option overrides its default. */
  function Merge(o: Options): (c: Config)
    ensures o.inputDir.Some? ==> c.inputDir == o.inputDir.value
    ensures o.inputDir.None? ==> c.inputDir == DefaultConfig.inputDir
    ensures o.outputDir.Some? ==> c.outputDir == o.outputDir.value
    ensures o.outputDir.None? ==> c.outputDir == DefaultConfig.outputDir
    ensures o.formats.Some? ==> c.formats == o.formats.value
    ensures o.formats.None? ==> c.formats == DefaultConfig.formats
    ensures o.widths.Some? ==> c.widths == o.widths.value
    ensures o.widths.None? ==> c.widths == DefaultConfig.widths
    ensures o.quality.Some? ==> c.quality == o.quality.value
    ensures o.quality.None? ==> c.quality == DefaultConfig.quality
  {
    Config(o.inputDir.GetOr(DefaultConfig.inputDir), o.outputDir.GetOr(DefaultConfig.outputDir),
      o.formats.GetOr(DefaultConfig.formats), o.widths.GetOr(DefaultConfig.widths), o.quality.GetOr(DefaultConfig.quality))
  }

  /** No options give the defaults; options for every field give exactly those options. */
  lemma MergeExtremes(c: Config)
    ensures Merge(Options(None, None, None, None, None)) == DefaultConfig
    ensures Merge(Options(Some(c.inputDir), Some(c.outputDir), Some(c.formats), Some(c.widths), Some(c.quality))) == c
  {
  }

  /**
   * The command line: the input and output directories from the first two
   * arguments, each falling back (when missing or empty) to `public/images`
   * and `public/images/optimized`; every other setting is the default.
   */
  function CliConfig(arg2: Option<string>, arg3: Option<string>): (c: Config)
    ensures c.inputDir == (if Truthy(arg2) then arg2.value else "public/images")
    ensures c.outputDir == (if Truthy(arg3) then arg3.value else "public/images/optimized")
    ensures c.formats == DefaultConfig.formats && c.widths == DefaultConfig.widths && c.quality == DefaultConfig.quality
  {
    Merge(Options(Some(OrElse(arg2, "public/images")), Some(OrElse(arg3, "public/images/optimized")), None, None, None))
  }

  const ImageExtensions := [".jpg", ".jpeg", ".png", ".webp"]

  /** A file name ending, in any letter case, with one of the four image extensions. */
  predicate IsImageFile(file: string)
  {
    exists i :: 0 <= i < |ImageExtensions| && EndsWith(Lower(file), ImageExtensions[i])
  }

  /** The image files of a listing, in listing order. */
  function ImageNames(files: seq<string>): (r: seq<string>)
    ensures |r| <= |files|
    ensures forall f :: f in r <==> f in files && IsImageFile(f)
  {
    if files == [] then []
    else (if IsImageFile(files[0]) then [files[0]] else []) + ImageNames(files[1..])
  }

  /** `getImageFiles`: nothing for a missing directory, else each image file joined to the directory. */
  function ImageFiles(dir: string, exists_: bool, files: seq<string>, join: (string, string) -> string): (r: seq<string>)
    ensures !exists_ ==> r == []
    ensures exists_ ==> (|r| == |ImageNames(files)|
      && forall i :: 0 <= i < |r| ==> r[i] == join(dir, ImageNames(files)[i]))
  {
    if !exists_ then [] else
      var names := ImageNames(files);
      seq(|names|, i requires 0 <= i < |names| => join(dir, names[i]))
  }

  /** Any name ending in a listed extension is an image, whatever comes before it. */
  lemma ExtensionMakesImage(stem: string, k: nat)
    requires k < |ImageExtensions|
    ensures IsImageFile(stem + ImageExtensions[k])
  {
    var f := stem + ImageExtensions[k];
    var e := ImageExtensions[k];
    assert forall i :: 0 <= i < |e| ==> 'a' <= e[i] <= 'z' || e[i] == '.';
    assert Lower(f)[|f| - |e|..] == e;
  }

  /** A name whose last character, lower-cased, is neither `g` nor `p` (such as `photo.jpg.txt`) is not an image. */
  lemma LastCharRulesOut(f: string)
    requires |f| > 0 && LowerChar(f[|f| - 1]) != 'g' && LowerChar(f[|f| - 1]) != 'p'
    ensures !IsImageFile(f)
  {
    var l := Lower(f);
    forall i | 0 <= i < |ImageExtensions|
      ensures !EndsWith(l, ImageExtensions[i])
    {
      var e := ImageExtensions[i];
      assert e[|e| - 1] == 'g' || e[|e| - 1] == 'p';
      assert l[|l| - 1] != e[|e| - 1];
    }
  }

  /** `${fileName}_${width}w.${format}`. */
  function VariantName(fileName: string, width: nat, format: string): string
  {
    fileName + "_" + NatToString(width) + "w." + format
  }

  /** The variants of one width, one per format in order. */
  function Row(fileName: string, width: nat, formats: seq<string>): (r: seq<string>)
    ensures |r| == |formats|
    ensures forall j :: 0 <= j < |formats| ==> r[j] == VariantName(fileName, width, formats[j])
  {
    if formats == [] then []
    else Row(fileName, width, formats[..|formats| - 1]) + [VariantName(fileName, width, formats[|formats| - 1])]
  }

  /** Every variant, width by width and, within a width, format by format. */
  function VariantNames(fileName: string, widths: seq<nat>, formats: seq<string>): seq<string>
  {
    if widths == [] then []
    else VariantNames(fileName, widths[..|widths| - 1], formats) + Row(fileName, widths[|widths| - 1], formats)
  }

  /** There is one variant per width and format. */
  lemma {:induction false} VariantCount(fileName: string, widths: seq<nat>, formats: seq<string>)
    ensures |VariantNames(fileName, widths, formats)| == |widths| * |formats|
  {
    if widths != [] {
      VariantCount(fileName, widths[..|widths| - 1], formats);
      assert (|widths| - 1) * |formats| + |formats| == |widths| * |formats|;
    }
  }

  lemma RowMajorBound(i: nat, j: nat, n: nat, f: nat)
    requires i < n && j < f
    ensures i * f + j < n * f
  {
    var d := n - i - 1;
    assert n * f == i * f + f + d * f;
    assert d * f >= 0;
  }

  /** The variant for the i-th width and j-th format is at i·|formats| + j. */
  lemma {:induction false} VariantAt(fileName: string, widths: seq<nat>, formats: seq<string>, i: nat, j: nat)
    requires i < |widths| && j < |formats|
    ensures |VariantNames(fileName, widths, formats)| == |widths| * |formats|
    ensures VariantNames(fileName, widths, formats)[i * |formats| + j] == VariantName(fileName, widths[i], formats[j])
  {
    var init := widths[..|widths| - 1];
    VariantCount(fileName, widths, formats);
    VariantCount(fileName, init, formats);
    if i < |init| {
      RowMajorBound(i, j, |init|, |formats|);
      VariantAt(fileName, init, formats, i, j);
      assert widths[i] == init[i];
    } else {
      assert i * |formats| == |init| * |formats|;
    }
  }

  /** With the default widths and formats each image gets 15 variants. */
  lemma DefaultVariantCount(fileName: string)
    ensures |VariantNames(fileName, DefaultConfig.widths, DefaultConfig.formats)| == 15
  {
    VariantCount(fileName, DefaultConfig.widths, DefaultConfig.formats);
  }

  /** The image's contents, as copied. */
  type Bytes = seq<int>

  /** The output directory: file names and their contents. */
  class OutputDir {
    var files: map<string, Bytes>

    constructor (files: map<string, Bytes>)
      ensures this.files == files
    {
      this.files := files;
    }

    /** Copies the image to a name unless a file of that name exists. */
    method CopyIfAbsent(name: string, image: Bytes)
      modifies this
      ensures files == if name in old(files) then old(files) else old(files)[name := image]
    {
      if name !in files {
        files := files[name := image];
      }
    }

    /** Copies the image to every format's name of one width, skipping names that exist. */
    method CopyRow(image: Bytes, fileName: string, width: nat, formats: seq<string>)
      modifies this
      ensures files.Keys == old(files).Keys + set n | n in Row(fileName, width, formats)
      ensures forall n :: n in old(files) ==> files[n] == old(files)[n]
      ensures forall n :: n in files && n !in old(files) ==> files[n] == image
    {
      for j := 0 to |formats|
        invariant files.Keys == old(files).Keys + set n | n in Row(fileName, width, formats[..j])
        invariant forall n :: n in old(files) ==> files[n] == old(files)[n]
        invariant forall n :: n in files && n !in old(files) ==> files[n] == image
      {
        assert formats[..j + 1][..j] == formats[..j];
        CopyIfAbsent(VariantName(fileName, width, formats[j]), image);
      }
      assert formats[..|formats|] == formats;
    }

    /**
     * `createResponsiveVariants`: afterwards every variant name is present;
     * files that already existed keep their contents, the new ones are copies
     * of the image, and no other name appears.
     */
    method CreateResponsiveVariants(image: Bytes, fileName: string, widths: seq<nat>, formats: seq<string>)
      modifies this
      ensures files.Keys == old(files).Keys + set n | n in VariantNames(fileName, widths, formats)
      ensures forall n :: n in old(files) ==> files[n] == old(files)[n]
      ensures forall n :: n in files && n !in old(files) ==> files[n] == image
    {
      for i := 0 to |widths|
        invariant files.Keys == old(files).Keys + set n | n in VariantNames(fileName, widths[..i], formats)
        invariant forall n :: n in old(files) ==> files[n] == old(files)[n]
        invariant forall n :: n in files && n !in old(files) ==> files[n] == image
      {
        CopyRow(image, fileName, widths[i], formats);
        assert widths[..i + 1][..i] == widths[..i];
        assert VariantNames(fileName, widths[..i + 1], formats)
          == VariantNames(fileName, widths[..i], formats) + Row(fileName, widths[i], formats);
      }
      assert widths[..|widths|] == widths;
    }
  }

  const Units := ["Bytes", "KB", "MB", "GB"]

  function Pow1024(i: nat): (p: nat)
    ensures p >= 1
  {
    if i == 0 then 1 else 1024 * Pow1024(i - 1)
  }

  /** ⌊log₁₀₂₄ bytes⌋, computed exactly. */
  function UnitIndex(bytes: nat): (i: nat)
    requires bytes >= 1
    ensures Pow1024(i) <= bytes < Pow1024(i + 1)
  {
    if bytes < 1024 then 0 else 1 + UnitIndex(bytes / 1024)
  }

  /**
   * `formatBytes`: "0 Bytes" for nothing; otherwise the size in the largest
   * unit not above it, to two decimals, and the unit, which is "undefined"
   * from 1024⁴ bytes on since only four units are listed.
   */
  function FormatBytes(bytes: nat, toFixed2: real -> string): (r: string)
    ensures bytes == 0 ==> r == "0 Bytes"
  {
    if bytes == 0 then "0 Bytes"
    else
      var i := UnitIndex(bytes);
      toFixed2(bytes as real / Pow1024(i) as real) + " " + (if i < |Units| then Units[i] else "undefined")
  }

  /** Below 1024⁴ bytes a size is shown as a number in [1, 1024) with a listed unit; from there on the unit is missing. */
  lemma FormatBytesUnit(bytes: nat, toFixed2: real -> string)
    requires bytes >= 1
    ensures var i := UnitIndex(bytes);
      1.0 <= bytes as real / Pow1024(i) as real < 1024.0
      && (i < |Units| <==> bytes < Pow1024(4))
      && FormatBytes(bytes, toFixed2) == toFixed2(bytes as real / Pow1024(i) as real) + " "
        + (if bytes < Pow1024(4) then Units[i] else "undefined")
  {
    var i := UnitIndex(bytes);
    assert Pow1024(i + 1) == 1024 * Pow1024(i);
    RatioBounds(bytes as real, Pow1024(i) as real);
    if i < 4 {
      MonotonePow(i + 1, 4);
    } else {
      MonotonePow(4, i);
    }
  }

  lemma RatioBounds(b: real, p: real)
    requires 0.0 < p <= b < 1024.0 * p
    ensures 1.0 <= b / p < 1024.0
  {
    var q := b / p;
    assert q * p == b;
    assert q < 1.0 ==> q * p < p;
    assert q >= 1024.0 ==> q * p >= 1024.0 * p;
  }

  lemma {:induction false} MonotonePow(a: nat, b: nat)
    requires a <= b
    ensures Pow1024(a) <= Pow1024(b)
    decreases b - a
  {
    if a < b {
      MonotonePow(a, b - 1);
    }
  }

  /** The saving as a percentage of the input size. */
  function Percent(inputSize: nat, outputSize: nat): real
    requires inputSize > 0
  {
    (inputSize - outputSize) as real / inputSize as real * 100.0
  }

  /**
   * The reported savings: "0" unless the output is smaller, otherwise the
   * saved share to one decimal, which is then above 0 and at most 100.
   */
  function SavingsPercentage(inputSize: nat, outputSize: nat, toFixed1: real -> string): (r: string)
    ensures outputSize >= inputSize ==> r == "0"
    ensures outputSize < inputSize ==> (r == toFixed1(Percent(inputSize, outputSize))
      && 0.0 < Percent(inputSize, outputSize) <= 100.0)
  {
    var savings := inputSize - outputSize;
    if savings > 0 then toFixed1(Percent(inputSize, outputSize)) else "0"
  }
}
