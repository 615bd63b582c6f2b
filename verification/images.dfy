/** Loading the original cover and deriving generation dimensions
    (image_processor.py). Pixels are not modelled: an image is its size. */
module Images {
  import opened Wrappers
  import opened Strings
  import opened Config

  /** A decoded image, reduced to its size in pixels. */
  datatype Image = Image(width: nat, height: nat)

  /** The file system as the loader sees it: a path is present when it is
      a key, and its value is what decoding that file yields (an image, or
      the decoder's error text). */
  type Disk = map<string, Result<Image, string>>

  /** The two errors `load_original_image` raises. */
  datatype LoadError =
    | FileNotFound(message: string)   // the input file does not exist
    | DecodeFailed(message: string)   // it exists but does not decode

  const MissingInputMessage: string := "Please place the original album cover at "

  /** `ImageProcessor.load_original_image`: existence is checked first, so
      a missing file fails without any decode being attempted. */
  function LoadOriginalImage(config: GenerationConfig, disk: Disk): (r: Result<Image, LoadError>)
    ensures InputPath(config) !in disk <==> r.Failure? && r.error.FileNotFound?
    ensures r.Failure? && r.error.FileNotFound? ==> EndsWith(r.error.message, InputPath(config))
    ensures r.Failure? && r.error.DecodeFailed? ==>
              InputPath(config) in disk && disk[InputPath(config)].Failure? &&
              EndsWith(r.error.message, disk[InputPath(config)].error)
    ensures r.Success? <==> InputPath(config) in disk && disk[InputPath(config)].Success?
    ensures r.Success? ==> r.value == disk[InputPath(config)].value
  {
    var path := InputPath(config);
    if path !in disk then
      Failure(FileNotFound(MissingInputMessage + path))
    else
      match disk[path]
      case Success(image) => Success(image)
      case Failure(e) => Failure(DecodeFailed("Failed to load image from " + path + ": " + e))
  }

  /** Rounds a side down to a multiple of 8 with floor division. */
  function RoundDownTo8(n: nat): (r: nat)
    ensures r % 8 == 0
    ensures r <= n < r + 8
  {
    (n / 8) * 8
  }

  /** `ImageProcessor.prepare_dimensions`: each side, independently, is the
      largest multiple of 8 not above the original. Nothing guards sides
      below 8, which become 0. */
  function PrepareDimensions(image: Image): (dims: (nat, nat))
    ensures dims.0 % 8 == 0 && dims.1 % 8 == 0
    ensures 0 <= image.width - dims.0 < 8 && 0 <= image.height - dims.1 < 8
  {
    (RoundDownTo8(image.width), RoundDownTo8(image.height))
  }

  /** No multiple of 8 lies strictly between a normalised side and the
      original one: the result is the largest admissible side. */
  lemma RoundDownIsLargest(n: nat, m: nat)
    requires m % 8 == 0 && m <= n
    ensures m <= RoundDownTo8(n)
  {
    assert m == (m / 8) * 8;
    assert m / 8 <= n / 8;
  }

  /** Normalising twice is normalising once. */
  lemma PrepareDimensionsIdempotent(image: Image)
    ensures var (w, h) := PrepareDimensions(image); PrepareDimensions(Image(w, h)) == (w, h)
  {
    var (w, h) := PrepareDimensions(image);
    MultipleOf8Unchanged(w);
    MultipleOf8Unchanged(h);
  }

  /** A side that already is a multiple of 8 is kept. */
  lemma MultipleOf8Unchanged(n: nat)
    requires n % 8 == 0
    ensures RoundDownTo8(n) == n
  {
    RoundDownIsLargest(n, n);
  }

  /** Each side is normalised on its own: the other side has no say. */
  lemma AxesIndependent(a: Image, b: Image)
    ensures a.width == b.width ==> PrepareDimensions(a).0 == PrepareDimensions(b).0
    ensures a.height == b.height ==> PrepareDimensions(a).1 == PrepareDimensions(b).1
  {
  }

  /** A side shorter than 8 pixels collapses to 0, and nothing reports it. */
  lemma SmallSideBecomesZero(image: Image)
    ensures image.width < 8 ==> PrepareDimensions(image).0 == 0
    ensures image.height < 8 ==> PrepareDimensions(image).1 == 0
  {
  }
}
