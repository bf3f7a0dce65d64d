/** The file extension of a media stream's container. */
module Extensions {
  import opened Wrappers

  /** A container value: one of the named members, or any other value of the enum's
      underlying type. */
  datatype Container = Mp4 | M4A | WebM | Tgpp | Flv | Other(raw: int)

  /** The error `GetFileExtension` raises for a container it does not know. */
  datatype ArgumentOutOfRange = ArgumentOutOfRange(paramName: string, message: string)

  /** `GetFileExtension`. */
  function GetFileExtension(container: Container): (r: Result<string, ArgumentOutOfRange>)
    ensures r.Failure? <==> container.Other?
    ensures r.Failure? ==> r.error == ArgumentOutOfRange("container", "Unknown container type")
    ensures r.Success? ==> r.value in {"mp4", "m4a", "webm", "3gpp", "flv"}
  {
    match container
    case Mp4 => Success("mp4")
    case M4A => Success("m4a")
    case WebM => Success("webm")
    case Tgpp => Success("3gpp")
    case Flv => Success("flv")
    case Other(_) => Failure(ArgumentOutOfRange("container", "Unknown container type"))
  }

  /** The container an extension names, reading the map backwards. */
  function ContainerOf(extension: string): (r: Option<Container>)
    ensures r.Some? ==> r.value.Other? == false
  {
    if extension == "mp4" then Some(Mp4)
    else if extension == "m4a" then Some(M4A)
    else if extension == "webm" then Some(WebM)
    else if extension == "3gpp" then Some(Tgpp)
    else if extension == "flv" then Some(Flv)
    else None
  }

  /** Every known container's extension leads back to that container. */
  lemma ExtensionRoundTrip(container: Container)
    requires !container.Other?
    ensures GetFileExtension(container).Success?
    ensures ContainerOf(GetFileExtension(container).value) == Some(container)
  {
  }

  /** Every extension the map produces is produced by exactly one container. */
  lemma ContainerRoundTrip(extension: string)
    requires ContainerOf(extension).Some?
    ensures GetFileExtension(ContainerOf(extension).value) == Success(extension)
  {
  }

  /** Distinct known containers have distinct extensions. */
  lemma ExtensionsDistinct(a: Container, b: Container)
    requires GetFileExtension(a).Success? && GetFileExtension(b).Success?
    requires GetFileExtension(a) == GetFileExtension(b)
    ensures a == b
  {
    ExtensionRoundTrip(a);
    ExtensionRoundTrip(b);
  }
}
