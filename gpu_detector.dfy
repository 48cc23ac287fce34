/**
 * Hardware-encoder selection (`gpu_detector.py`): platform-specific probing
 * picks one encoder profile, from which the ffmpeg encoder arguments, the
 * scale filter and the hardware-upload filter follow. The platform name and
 * the outcomes of the probe commands are parameters.
 */
module GpuDetector {
  import opened Wrappers
  import opened Strings

  /** What running a probe command gave: its exit code and standard output,
      or an exception (command missing, timeout). */
  datatype Probe = Completed(returnCode: int, stdout: string) | Failed

  /** The probes detection may run: `nvidia-smi` (on Linux and Windows),
      `vainfo` and `system_profiler`. */
  datatype Probes = Probes(nvidiaSmi: Probe, vainfo: Probe, systemProfiler: Probe)

  /** The `gpu_info` dictionary; keys a profile does not set are `None`. */
  datatype GpuInfo = GpuInfo(
    available: bool,
    gpuType: string,
    name: Option<string>,
    encoder: Option<string>,
    decoder: Option<string>,
    scaleFilter: Option<string>)

  const CpuProfile: GpuInfo := GpuInfo(false, "cpu", None, None, None, None)
  const VaapiProfile: GpuInfo := GpuInfo(true, "vaapi", None, Some("h264_vaapi"), None, Some("scale_vaapi"))
  const VideoToolboxProfile: GpuInfo := GpuInfo(true, "videotoolbox", None, Some("h264_videotoolbox"), None, Some("scale"))

  function NvidiaProfile(name: string): GpuInfo
  {
    GpuInfo(true, "nvidia", Some(name), Some("h264_nvenc"), Some("h264_cuvid"), Some("scale_cuda"))
  }

  /** `nvidia-smi` exited 0 with non-blank output. */
  predicate NvidiaFound(p: Probe)
  {
    p.Completed? && p.returnCode == 0 && Strip(p.stdout) != ""
  }

  /** `vainfo` exited 0 and listed a VA profile. */
  predicate VaapiFound(p: Probe)
  {
    p.Completed? && p.returnCode == 0 && Contains(p.stdout, "VAProfile")
  }

  /** `system_profiler` exited 0 with any output. */
  predicate DisplayFound(p: Probe)
  {
    p.Completed? && p.returnCode == 0 && p.stdout != ""
  }

  /** `_detect_linux_gpu` */
  function DetectLinux(probes: Probes): GpuInfo
  {
    if NvidiaFound(probes.nvidiaSmi) then NvidiaProfile(Strip(probes.nvidiaSmi.stdout))
    else if VaapiFound(probes.vainfo) then VaapiProfile
    else CpuProfile
  }

  /** `_detect_macos_gpu` */
  function DetectMacOS(probes: Probes): GpuInfo
  {
    if DisplayFound(probes.systemProfiler) then VideoToolboxProfile else CpuProfile
  }

  /** `_detect_windows_gpu` */
  function DetectWindows(probes: Probes): GpuInfo
  {
    if NvidiaFound(probes.nvidiaSmi) then NvidiaProfile(Strip(probes.nvidiaSmi.stdout)) else CpuProfile
  }

  /** `detect_gpu` on the platform called `system`. */
  function DetectGpu(system: string, probes: Probes): GpuInfo
  {
    if system == "Linux" then DetectLinux(probes)
    else if system == "Darwin" then DetectMacOS(probes)
    else if system == "Windows" then DetectWindows(probes)
    else CpuProfile
  }

  /** One of the four profiles detection can produce. */
  predicate IsDetectedProfile(info: GpuInfo)
  {
    || info == CpuProfile
    || info == VaapiProfile
    || info == VideoToolboxProfile
    || (info.gpuType == "nvidia" && info.name.Some? && info == NvidiaProfile(info.name.value))
  }

  /** Every detected profile is one of the four; it is available exactly
      when it is not the CPU profile, and then it names an encoder and a
      scale filter; an NVIDIA profile carries the trimmed, non-blank probe
      output as its name. */
  lemma DetectedProfileShape(system: string, probes: Probes)
    ensures var info := DetectGpu(system, probes);
      && IsDetectedProfile(info)
      && (info.available <==> info.gpuType != "cpu")
      && (info.available ==> info.encoder.Some? && info.scaleFilter.Some?)
      && (info.gpuType == "nvidia" ==> info.name == Some(Strip(probes.nvidiaSmi.stdout)) && info.name.value != "")
  {
  }

  /** On Linux NVIDIA wins over VA-API, which wins over the CPU; a probe
      that raised counts as not found. */
  lemma LinuxDetectionOrder(probes: Probes)
    ensures DetectGpu("Linux", probes).gpuType == "nvidia" <==> NvidiaFound(probes.nvidiaSmi)
    ensures DetectGpu("Linux", probes).gpuType == "vaapi" <==> !NvidiaFound(probes.nvidiaSmi) && VaapiFound(probes.vainfo)
    ensures DetectGpu("Linux", probes) == CpuProfile <==> !NvidiaFound(probes.nvidiaSmi) && !VaapiFound(probes.vainfo)
    ensures probes.nvidiaSmi.Failed? ==> DetectGpu("Linux", probes) == DetectGpu("Linux", probes.(nvidiaSmi := Completed(1, "")))
  {
  }

  /** macOS yields VideoToolbox or the CPU, Windows yields NVIDIA or the
      CPU, and any other platform the CPU, each from its own probes only. */
  lemma OtherPlatforms(system: string, probes: Probes, other: Probes)
    ensures DetectGpu("Darwin", probes).gpuType in {"videotoolbox", "cpu"}
    ensures DetectGpu("Darwin", probes).gpuType == "videotoolbox" <==> DisplayFound(probes.systemProfiler)
    ensures DetectGpu("Windows", probes).gpuType in {"nvidia", "cpu"}
    ensures DetectGpu("Windows", probes).gpuType == "nvidia" <==> NvidiaFound(probes.nvidiaSmi)
    ensures other.nvidiaSmi == probes.nvidiaSmi ==> DetectGpu("Windows", other) == DetectGpu("Windows", probes)
    ensures other.systemProfiler == probes.systemProfiler ==> DetectGpu("Darwin", other) == DetectGpu("Darwin", probes)
    ensures system !in {"Linux", "Darwin", "Windows"} ==> DetectGpu(system, probes) == CpuProfile
  {
  }

  /** `get_ffmpeg_encoding_args` */
  function EncodingArgs(info: GpuInfo, resolution: string, crf: string, preset: string): seq<string>
  {
    if !info.available then ["-c:v", "libx264", "-preset", preset, "-crf", crf]
    else if info.gpuType == "nvidia" then ["-c:v", "h264_nvenc", "-preset", "p4", "-rc", "vbr", "-cq", crf, "-b:v", "0"]
    else if info.gpuType == "videotoolbox" then ["-c:v", "h264_videotoolbox", "-b:v", "5M"]
    else if info.gpuType == "vaapi" then ["-c:v", "h264_vaapi", "-qp", crf]
    else ["-c:v", "libx264", "-preset", preset, "-crf", crf]
  }

  /** For every detected profile the arguments select its encoder first
      (libx264 on the CPU); the resolution is never used. */
  lemma EncodingArgsSelectEncoder(system: string, probes: Probes, resolution: string, other: string, crf: string, preset: string)
    ensures var info := DetectGpu(system, probes);
      var args := EncodingArgs(info, resolution, crf, preset);
      && |args| >= 2 && args[0] == "-c:v"
      && args[1] == (if info.available then info.encoder.value else "libx264")
      && args == EncodingArgs(info, other, crf, preset)
  {
    var info := DetectGpu(system, probes);
    DetectedProfileShape(system, probes);
    if info == CpuProfile {
    } else if info == VaapiProfile {
      assert "vaapi" != "nvidia" && "vaapi" != "videotoolbox";
    } else if info == VideoToolboxProfile {
      assert "videotoolbox" != "nvidia";
    } else {
      assert info.gpuType == "nvidia";
    }
  }

  /** The software path, and an available profile of unknown type, encode
      with libx264 at the given preset and CRF; NVIDIA takes the CRF as
      `-cq`, VA-API as `-qp`; VideoToolbox ignores both at a fixed 5M
      bitrate. */
  lemma EncodingArgsQuality(info: GpuInfo, resolution: string, crf: string, preset: string, crf2: string, preset2: string)
    ensures !info.available || info.gpuType !in {"nvidia", "videotoolbox", "vaapi"} ==>
      EncodingArgs(info, resolution, crf, preset) == ["-c:v", "libx264", "-preset", preset, "-crf", crf]
    ensures info.available && info.gpuType == "nvidia" ==>
      EncodingArgs(info, resolution, crf, preset)[6..8] == ["-cq", crf]
    ensures info.available && info.gpuType == "vaapi" ==>
      EncodingArgs(info, resolution, crf, preset)[2..] == ["-qp", crf]
    ensures info.available && info.gpuType == "videotoolbox" ==>
      EncodingArgs(info, resolution, crf, preset) == EncodingArgs(info, resolution, crf2, preset2)
      && EncodingArgs(info, resolution, crf, preset)[2..] == ["-b:v", "5M"]
  {
  }

  /** `get_scale_filter`; `None` stands for the `IndexError` the VA-API
      branch raises when the resolution holds no `x`. */
  function ScaleFilter(info: GpuInfo, resolution: string): Option<string>
  {
    if !info.available then Some("scale=" + resolution)
    else if info.gpuType == "nvidia" then Some("scale_cuda=" + resolution)
    else if info.gpuType == "vaapi" then
      var parts := SplitOn(resolution, 'x');
      if |parts| < 2 then None
      else Some("scale_vaapi=w=" + parts[0] + ":h=" + parts[1])
    else Some("scale=" + resolution)
  }

  /** The filter fails only on VA-API for a resolution without `x`; for
      every detected profile it starts with the profile's scale filter
      (plain `scale` on the CPU); VA-API splits `WxH` into width and height. */
  lemma ScaleFilterSpec(system: string, probes: Probes, resolution: string, w: string, h: string)
    ensures var info := DetectGpu(system, probes);
      var f := ScaleFilter(info, resolution);
      && (f.None? <==> info.gpuType == "vaapi" && 'x' !in resolution)
      && (f.Some? ==> (if info.available then info.scaleFilter.value else "scale") + "=" <= f.value)
    ensures 'x' !in w && 'x' !in h ==>
      ScaleFilter(VaapiProfile, w + "x" + h) == Some("scale_vaapi=w=" + w + ":h=" + h)
  {
    SplitOnHasTwoParts(resolution, 'x');
    DetectedProfileShape(system, probes);
    if 'x' !in w && 'x' !in h {
      SplitOnPair(w, h, 'x');
    }
  }

  /** `requires_hw_upload` */
  predicate RequiresHwUpload(info: GpuInfo)
  {
    info.gpuType in ["nvidia", "vaapi"]
  }

  /** `get_hw_upload_filter` */
  function HwUploadFilter(info: GpuInfo): Option<string>
  {
    if info.gpuType == "nvidia" then Some("hwupload_cuda")
    else if info.gpuType == "vaapi" then Some("format=nv12,hwupload")
    else None
  }

  /** An upload is required exactly when there is an upload filter. */
  lemma HwUploadAgrees(info: GpuInfo)
    ensures RequiresHwUpload(info) <==> HwUploadFilter(info).Some?
  {
  }
}
