/**
 * Platform capabilities (src/platform/capabilities.ts): conservative base
 * values, replaced field by field for each recognised platform.
 */
module Capabilities {
  import opened Detect

  const MiB: int := 1024 * 1024

  datatype PlatformCapabilities = PlatformCapabilities(
    supportsDRM: bool,
    supportsHDR: bool,
    supports4K: bool,
    supportsDolbyAtmos: bool,
    hasHardwareAcceleration: bool,
    maxVideoMemory: int,
    hasVoiceControl: bool,
    hasPointerSupport: bool,
    hasLocalStorage: bool,
    maxLocalStorageSize: int)

  function BaseCapabilities(): PlatformCapabilities {
    PlatformCapabilities(
      supportsDRM := true, supportsHDR := false, supports4K := false, supportsDolbyAtmos := false,
      hasHardwareAcceleration := true, maxVideoMemory := 50 * MiB,
      hasVoiceControl := false, hasPointerSupport := false,
      hasLocalStorage := true, maxLocalStorageSize := 5 * MiB)
  }

  /** `getCapabilities()` for a detected platform: the base record with that platform's overrides. */
  function GetCapabilities(p: Platform): PlatformCapabilities {
    var base := BaseCapabilities();
    match p
    case Tizen =>
      base.(supportsHDR := true, supports4K := true, supportsDolbyAtmos := true,
            maxVideoMemory := 100 * MiB, hasVoiceControl := true, hasPointerSupport := true,
            maxLocalStorageSize := 10 * MiB)
    case WebOS =>
      base.(supportsHDR := true, supports4K := true, supportsDolbyAtmos := true,
            maxVideoMemory := 80 * MiB, hasVoiceControl := true, hasPointerSupport := true,
            maxLocalStorageSize := 10 * MiB)
    case Hisense =>
      base.(supportsHDR := true, supports4K := true, supportsDolbyAtmos := false,
            maxVideoMemory := 60 * MiB, hasVoiceControl := false, hasPointerSupport := false,
            maxLocalStorageSize := 5 * MiB)
    case Generic => base
  }

  /** An unrecognised platform gets exactly the base record. */
  lemma GenericIsBase()
    ensures GetCapabilities(Generic) == BaseCapabilities()
  {
  }

  /** DRM, hardware acceleration and local storage are never overridden, and are on everywhere. */
  lemma FixedCapabilities(p: Platform)
    ensures GetCapabilities(p).supportsDRM == BaseCapabilities().supportsDRM == true
    ensures GetCapabilities(p).hasHardwareAcceleration == BaseCapabilities().hasHardwareAcceleration == true
    ensures GetCapabilities(p).hasLocalStorage == BaseCapabilities().hasLocalStorage == true
  {
  }

  /** Video memory is 50, 100, 80 and 60 MiB, so no platform has less than the base. */
  lemma VideoMemory(p: Platform)
    ensures GetCapabilities(p).maxVideoMemory >= BaseCapabilities().maxVideoMemory
    ensures GetCapabilities(p).maxVideoMemory ==
            match p
            case Tizen => 100 * MiB
            case WebOS => 80 * MiB
            case Hisense => 60 * MiB
            case Generic => 50 * MiB
  {
  }

  /** Hisense: no Dolby Atmos, no voice control, no pointer, 5 MiB of storage. */
  lemma HisenseProfile()
    ensures var c := GetCapabilities(Hisense);
            !c.supportsDolbyAtmos && !c.hasVoiceControl && !c.hasPointerSupport
            && c.maxLocalStorageSize == 5 * MiB && c.supports4K && c.supportsHDR
  {
  }

  /** Every platform supports 4K exactly when it supports HDR. */
  lemma FourKIffHDR(p: Platform)
    ensures GetCapabilities(p).supports4K == GetCapabilities(p).supportsHDR
  {
  }

  /** The keys of `PlatformCapabilities` that `hasCapability` accepts. */
  datatype Capability =
    | SupportsDRM | SupportsHDR | Supports4K | SupportsDolbyAtmos | HasHardwareAcceleration
    | MaxVideoMemory | HasVoiceControl | HasPointerSupport | HasLocalStorage | MaxLocalStorageSize

  /** `!!capabilities[capability]`: a flag's value, or whether a size is non-zero. */
  function Truthy(c: PlatformCapabilities, cap: Capability): bool {
    match cap
    case SupportsDRM => c.supportsDRM
    case SupportsHDR => c.supportsHDR
    case Supports4K => c.supports4K
    case SupportsDolbyAtmos => c.supportsDolbyAtmos
    case HasHardwareAcceleration => c.hasHardwareAcceleration
    case MaxVideoMemory => c.maxVideoMemory != 0
    case HasVoiceControl => c.hasVoiceControl
    case HasPointerSupport => c.hasPointerSupport
    case HasLocalStorage => c.hasLocalStorage
    case MaxLocalStorageSize => c.maxLocalStorageSize != 0
  }

  /** `hasCapability(capability)` on a detected platform. */
  function HasCapability(p: Platform, cap: Capability): bool {
    Truthy(GetCapabilities(p), cap)
  }

  /** The sizes are positive everywhere, so asking for them always answers true. */
  lemma SizesAlwaysReported(p: Platform)
    ensures GetCapabilities(p).maxVideoMemory > 0 && GetCapabilities(p).maxLocalStorageSize > 0
    ensures HasCapability(p, MaxVideoMemory) && HasCapability(p, MaxLocalStorageSize)
  {
  }

  /** The voice and pointer capabilities go together, and exactly Tizen and webOS have them. */
  lemma VoiceAndPointer(p: Platform)
    ensures HasCapability(p, HasVoiceControl) == HasCapability(p, HasPointerSupport)
    ensures HasCapability(p, HasVoiceControl) <==> p == Tizen || p == WebOS
  {
  }
}
