/** `resolve_device`: the compute device a request runs on. */
module Device {
  import opened Base
  import opened Text
  import opened Py

  /** The answer of `import torch; torch.cuda.is_available()`: whether CUDA
      is available, or the exception raised on the way. */
  type CudaProbe = Result<bool, Fault>

  /** `(device or "auto").lower()`. */
  function Requested(device: Option<string>): string
  {
    Lower(StrOr(device, "auto"))
  }

  /** An explicit `cpu` or `cuda` (in any letter case) is taken as is; any
      other request asks the probe, and a failing probe means `cpu`. */
  function ResolveDevice(device: Option<string>, probe: CudaProbe): (r: string)
    ensures r == "cpu" || r == "cuda"
    ensures Requested(device) in ["cpu", "cuda"] ==> r == Requested(device)
    ensures Requested(device) !in ["cpu", "cuda"] ==> (r == "cuda" <==> probe == Ok(true))
  {
    var d := Requested(device);
    if d == "cpu" || d == "cuda" then d
    else
      match probe
      case Ok(available) => if available then "cuda" else "cpu"
      case Err(_) => "cpu"
  }

  /** A resolved device resolves to itself whatever the probe says, so
      resolving is idempotent. */
  lemma ResolveIdempotent(device: Option<string>, probe: CudaProbe, probe2: CudaProbe)
    ensures ResolveDevice(Some(ResolveDevice(device, probe)), probe2) == ResolveDevice(device, probe)
  {
    var r := ResolveDevice(device, probe);
    assert Lower(r) == r by {
      if r == "cpu" { assert Lower("cpu") == "cpu"; } else { assert Lower("cuda") == "cuda"; }
    }
  }

  /** Concrete requests: letter case is ignored for `cpu`/`cuda`; `auto`,
      `gpu`, the empty string and no value all follow the probe, and a probe
      that raised gives `cpu`. */
  lemma ResolveExamples(probe: CudaProbe, f: Fault)
    ensures ResolveDevice(Some("CPU"), probe) == "cpu"
    ensures ResolveDevice(Some("Cuda"), probe) == "cuda"
    ensures ResolveDevice(Some("auto"), Ok(true)) == "cuda"
    ensures ResolveDevice(Some("gpu"), Ok(false)) == "cpu"
    ensures ResolveDevice(Some(""), Err(f)) == "cpu"
    ensures ResolveDevice(None, Ok(true)) == "cuda"
  {
    assert Lower("CPU") == "cpu";
    assert Lower("Cuda") == "cuda";
    assert Lower("auto") == "auto";
    assert Lower("gpu") == "gpu";
  }
}
