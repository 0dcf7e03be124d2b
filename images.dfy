/** Base-image selection and tag derivation performed by `Docker.build`
    in src/model/docker.js (lines 8-17). */
module Images {

  /** The base-image descriptor handed to `build`: only the three fields the
      builder reads are modelled; how the descriptor renders itself when it
      is interpolated into a command line is not visible and stays abstract. */
  datatype BaseImage = BaseImage(version: string, platform: string, suffix: string)

  /** The tag of the image that `build` produces. Its textual rendering lives
      in a file that is not part of this model, so the tag is kept as a record. */
  datatype ImageTag = ImageTag(repository: string, name: string, version: string, platform: string, suffix: string)

  /** What the `IMAGE` build argument refers to: either a literal image
      reference, or the base-image descriptor itself (rendered abstractly). */
  datatype ImageRef = Pinned(reference: string) | FromBase(image: BaseImage)

  /** The digest-pinned third-party image used for Android builds. */
  const AndroidImage: string :=
    "gableroux/unity3d@sha256:d9753191a3c228eb02451531ca4e186e020a4eb14deb2456399c3eb0079e7593"

  /** The fixed image name under which builder images are tagged. */
  const BuilderName: string := "unity-builder"

  /** The platform test: exactly two spellings, compared literally. */
  predicate IsAndroid(platform: string) {
    platform == "android" || platform == "Android"
  }

  /** The image the builder image is built FROM. */
  function ResolveImage(b: BaseImage): (r: ImageRef)
    ensures r.Pinned? <==> (b.platform == "android" || b.platform == "Android")
    ensures r.Pinned? ==> r.reference == AndroidImage
    ensures r.FromBase? ==> r.image == b
  {
    if IsAndroid(b.platform) then Pinned(AndroidImage) else FromBase(b)
  }

  /** The version and suffix of an Android base image play no part in the
      image it is built from. */
  lemma AndroidIgnoresVersionAndSuffix(b1: BaseImage, b2: BaseImage)
    requires IsAndroid(b1.platform) && b1.platform == b2.platform
    ensures ResolveImage(b1) == ResolveImage(b2) == Pinned(AndroidImage)
  {
  }

  /** Any other spelling, upper case included, keeps the base image. */
  lemma OtherSpellingsKeepBaseImage(b: BaseImage)
    requires b.platform !in {"android", "Android"}
    ensures ResolveImage(b) == FromBase(b)
  {
  }

  /** The upper-case spelling is not matched. */
  lemma UpperCaseAndroidKeepsBaseImage(version: string, suffix: string)
    ensures ResolveImage(BaseImage(version, "ANDROID", suffix)) == FromBase(BaseImage(version, "ANDROID", suffix))
  {
  }

  /** The tag identifying the image that `build` produces. */
  function TagFor(b: BaseImage): (t: ImageTag)
    ensures t.repository == "" && t.name == BuilderName
    ensures t.version == b.version && t.platform == b.platform && t.suffix == b.suffix
  {
    ImageTag("", BuilderName, b.version, b.platform, b.suffix)
  }

  /** Two base images get the same tag exactly when their version, platform
      and suffix agree: the tag neither loses nor invents information. */
  lemma TagDeterminedByBaseImage(b1: BaseImage, b2: BaseImage)
    ensures TagFor(b1) == TagFor(b2) <==>
      (b1.version == b2.version && b1.platform == b2.platform && b1.suffix == b2.suffix)
  {
  }
}
