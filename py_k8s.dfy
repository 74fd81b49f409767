/**
 * The Kubernetes wrapper of the Python package (src/kaniko_remote/k8s/k8s.py):
 * the kubectl login command, container-state selection over a watch
 * stream, the two waits, and the heredoc commands that carry a gzipped tar
 * of the build context into the pod.
 *
 * A watch stream is a finite sequence of snapshots (the event pod's status,
 * missing when it has none); the tar buffer is its bytes; the temporary file
 * name (`uuid4().hex`) and `os.path.relpath` are parameters.
 */
module K8s {
  import opened Wrappers
  import opened Errors
  import opened K8sModels
  import opened Base64

  /**
   * `_attempt_kubectl_login`'s command. It starts with `kubectl`, ends with `get
   * namespace <ns>`, and carries `--kubeconfig k` right after `kubectl` and
   * `--context c` right before `get` exactly when they are truthy.
   */
  function KubectlCommand(kubeconfig: Option<string>, context: Option<string>, namespace: string): (c: seq<string>)
    ensures |c| == 4 + (if TruthyString(kubeconfig) then 2 else 0) + (if TruthyString(context) then 2 else 0)
    ensures c[0] == "kubectl"
    ensures c[|c| - 3..] == ["get", "namespace", namespace]
    ensures TruthyString(kubeconfig) ==> c[1..3] == ["--kubeconfig", kubeconfig.value]
    ensures TruthyString(context) ==> c[|c| - 5..|c| - 3] == ["--context", context.value]
    ensures !TruthyString(kubeconfig) && !TruthyString(context) ==> c == ["kubectl", "get", "namespace", namespace]
  {
    ["kubectl"]
      + (if TruthyString(kubeconfig) then ["--kubeconfig", kubeconfig.value] else [])
      + (if TruthyString(context) then ["--context", context.value] else [])
      + ["get", "namespace", namespace]
  }

  /** `(container_statuses or []) + (ephemeral_container_statuses or []) + (init_container_statuses or [])`. */
  function AllStatuses(status: PodStatus): seq<ContainerStatus>
  {
    status.containerStatuses.GetOr([]) + status.ephemeralContainerStatuses.GetOr([]) + status.initContainerStatuses.GetOr([])
  }

  function MoreThanOneMessage(podName: string, container: string): string
  {
    "Pod '" + podName + "' has more than one container '" + container + "'"
  }

  /**
   * One event of `_watch_container_states`: the states of the statuses
   * named `container`; one match yields its state (which may itself be
   * None), none yields nothing, more raise ValueError. A missing pod status
   * raises AttributeError.
   */
  function SelectState(snapshot: Option<PodStatus>, podName: string, container: string)
    : (r: Result<Option<Option<ContainerState>>, Error>)
    ensures snapshot.None? ==> r == Failure(AttributeError("container_statuses"))
    ensures snapshot.Some? ==>
      var named := Named(AllStatuses(snapshot.value), container);
      && (r.Failure? <==> |named| > 1)
      && (r.Failure? ==> r.error == ValueError(MoreThanOneMessage(podName, container)))
      && (|named| == 0 ==> r == Success(None))
      && (|named| == 1 ==> r == Success(Some(named[0].state)))
  {
    if snapshot.None? then Failure(AttributeError("container_statuses"))
    else
      var named := Named(AllStatuses(snapshot.value), container);
      if |named| == 1 then Success(Some(named[0].state))
      else if |named| > 1 then Failure(ValueError(MoreThanOneMessage(podName, container)))
      else Success(None)
  }

  /**
   * Selection by index: the one status named `container` anywhere in the
   * three lists gives its state, and a second one raises.
   */
  lemma SelectStateByIndex(status: PodStatus, podName: string, container: string, k: int)
    ensures var xs := AllStatuses(status);
      (0 <= k < |xs| && xs[k].name == container && forall i :: 0 <= i < |xs| && i != k ==> xs[i].name != container) ==>
        SelectState(Some(status), podName, container) == Success(Some(xs[k].state))
    ensures var xs := AllStatuses(status);
      (forall i :: 0 <= i < |xs| ==> xs[i].name != container) ==> SelectState(Some(status), podName, container) == Success(None)
    ensures var xs := AllStatuses(status);
      (exists i, j :: 0 <= i < j < |xs| && xs[i].name == container && xs[j].name == container) ==>
        SelectState(Some(status), podName, container) == Failure(ValueError(MoreThanOneMessage(podName, container)))
  {
    var xs := AllStatuses(status);
    if 0 <= k < |xs| && xs[k].name == container && forall i :: 0 <= i < |xs| && i != k ==> xs[i].name != container {
      NamedByIndex(xs, container, k);
    }
    if forall i :: 0 <= i < |xs| ==> xs[i].name != container {
      NamedByIndex(xs, container, -1);
    }
    if exists i, j :: 0 <= i < j < |xs| && xs[i].name == container && xs[j].name == container {
      var i, j :| 0 <= i < j < |xs| && xs[i].name == container && xs[j].name == container;
      NamedTwice(xs, container, i, j);
    }
  }

  /** A snapshot the wait passes over: nothing is yielded, or a state without the awaited part. */
  predicate PassesOver<T>(snapshot: Option<PodStatus>, podName: string, container: string, pick: ContainerState -> Option<T>)
  {
    var sel := SelectState(snapshot, podName, container);
    sel.Success? && (sel.value.None? || (sel.value.value.Some? && pick(sel.value.value.value).None?))
  }

  /** The snapshot yields a state whose awaited part is `v`. */
  predicate Yields<T(==)>(snapshot: Option<PodStatus>, podName: string, container: string, pick: ContainerState -> Option<T>, v: T)
  {
    match SelectState(snapshot, podName, container)
    case Success(Some(Some(state))) => pick(state) == Some(v)
    case _ => false
  }

  /**
   * The outcome of `wait_for_container_*_state`: `pick` reads the awaited
   * attribute (`running`, `terminated`), named `attribute`. A yielded None
   * state raises AttributeError naming the attribute; the end of the stream
   * returns None. Those and the selection errors are the only failures.
   */
  function Await<T>(snapshots: seq<Option<PodStatus>>, podName: string, container: string,
                    pick: ContainerState -> Option<T>, attribute: string): (r: Result<Option<T>, Error>)
    ensures |snapshots| == 0 ==> r == Success(None)
    ensures r.Failure? ==> r.error in {AttributeError(attribute), AttributeError("container_statuses"),
                                       ValueError(MoreThanOneMessage(podName, container))}
  {
    if |snapshots| == 0 then Success(None)
    else
      assert forall i :: 1 <= i < |snapshots| ==> snapshots[1..][i - 1] == snapshots[i];
      match SelectState(snapshots[0], podName, container)
      case Failure(e) => Failure(e)
      case Success(None) => Await(snapshots[1..], podName, container, pick, attribute)
      case Success(Some(None)) => Failure(AttributeError(attribute))
      case Success(Some(Some(state))) =>
        if pick(state).Some? then Success(pick(state)) else Await(snapshots[1..], podName, container, pick, attribute)
  }

  /**
   * A wait that returns a value returns the awaited part of the first state
   * in stream order that has one; every earlier snapshot was passed over.
   */
  lemma {:induction false} AwaitFindsFirst<T>(snapshots: seq<Option<PodStatus>>, podName: string, container: string,
                                              pick: ContainerState -> Option<T>, attribute: string)
    ensures var r := Await(snapshots, podName, container, pick, attribute);
      r.Success? && r.value.Some? ==>
        exists k :: 0 <= k < |snapshots| &&
          (forall j :: 0 <= j < k ==> PassesOver(snapshots[j], podName, container, pick)) &&
          Yields(snapshots[k], podName, container, pick, r.value.value)
  {
    var r := Await(snapshots, podName, container, pick, attribute);
    if |snapshots| > 0 && r.Success? && r.value.Some? {
      if !Yields(snapshots[0], podName, container, pick, r.value.value) {
        var rest := snapshots[1..];
        assert r == Await(rest, podName, container, pick, attribute);
        AwaitFindsFirst(rest, podName, container, pick, attribute);
        var k :| 0 <= k < |rest| && (forall j :: 0 <= j < k ==> PassesOver(rest[j], podName, container, pick)) &&
          Yields(rest[k], podName, container, pick, r.value.value);
        assert forall j :: 1 <= j < k + 1 ==> snapshots[j] == rest[j - 1];
        assert snapshots[k + 1] == rest[k];
      }
    }
  }

  /**
   * Conversely, when snapshot `k` is the first to yield a state with the
   * awaited part and every earlier one was passed over, the wait returns it.
   */
  lemma {:induction false} AwaitReturnsFirst<T>(snapshots: seq<Option<PodStatus>>, podName: string, container: string,
                                                pick: ContainerState -> Option<T>, attribute: string, k: int, v: T)
    requires 0 <= k < |snapshots| && Yields(snapshots[k], podName, container, pick, v)
    requires forall j :: 0 <= j < k ==> PassesOver(snapshots[j], podName, container, pick)
    ensures Await(snapshots, podName, container, pick, attribute) == Success(Some(v))
    decreases k
  {
    if k > 0 {
      var rest := snapshots[1..];
      assert forall j :: 0 <= j < k - 1 ==> PassesOver(rest[j], podName, container, pick) by {
        assert forall j :: 0 <= j < k - 1 ==> rest[j] == snapshots[j + 1];
      }
      assert rest[k - 1] == snapshots[k];
      AwaitReturnsFirst(rest, podName, container, pick, attribute, k - 1, v);
      assert PassesOver(snapshots[0], podName, container, pick);
    }
  }

  /**
   * Unlike the C# port, the Python waits do not raise when the stream ends:
   * they return None exactly when every snapshot was passed over.
   */
  lemma {:induction false} AwaitEndsWithNone<T>(snapshots: seq<Option<PodStatus>>, podName: string, container: string,
                                                pick: ContainerState -> Option<T>, attribute: string)
    ensures Await(snapshots, podName, container, pick, attribute) == Success(None)
      <==> forall j :: 0 <= j < |snapshots| ==> PassesOver(snapshots[j], podName, container, pick)
  {
    if |snapshots| > 0 {
      var rest := snapshots[1..];
      AwaitEndsWithNone(rest, podName, container, pick, attribute);
      assert forall j :: 1 <= j < |snapshots| ==> snapshots[j] == rest[j - 1];
      if PassesOver(snapshots[0], podName, container, pick) {
        assert Await(snapshots, podName, container, pick, attribute) == Await(rest, podName, container, pick, attribute);
      } else {
        assert Await(snapshots, podName, container, pick, attribute) != Success(None);
      }
    }
  }

  /** The `for state in self._watch_container_states(...)` loop, proved against `Await`. */
  method AwaitContainerState<T>(snapshots: seq<Option<PodStatus>>, podName: string, container: string,
                                pick: ContainerState -> Option<T>, attribute: string)
    returns (r: Result<Option<T>, Error>)
    ensures r == Await(snapshots, podName, container, pick, attribute)
  {
    var i := 0;
    while i < |snapshots|
      invariant 0 <= i <= |snapshots|
      invariant Await(snapshots, podName, container, pick, attribute) == Await(snapshots[i..], podName, container, pick, attribute)
    {
      var yielded := SelectState(snapshots[i], podName, container);
      if yielded.Failure? {
        return Failure(yielded.error);
      }
      if yielded.value.Some? {
        var state := yielded.value.value;
        if state.None? {
          return Failure(AttributeError(attribute));
        }
        if pick(state.value).Some? {
          return Success(pick(state.value));
        }
      }
      assert snapshots[i..][1..] == snapshots[i + 1..];
      i := i + 1;
    }
    return Success(None);
  }

  function Running(state: ContainerState): Option<ContainerStateRunning>
  {
    state.running
  }

  function Terminated(state: ContainerState): Option<ContainerStateTerminated>
  {
    state.terminated
  }

  /** `wait_for_container_running_state`. */
  method WaitForContainerRunningState(snapshots: seq<Option<PodStatus>>, podName: string, container: string)
    returns (r: Result<Option<ContainerStateRunning>, Error>)
    ensures r == Await(snapshots, podName, container, Running, "running")
  {
    r := AwaitContainerState(snapshots, podName, container, Running, "running");
  }

  /** `wait_for_container_terminated_state`. */
  method WaitForContainerTerminatedState(snapshots: seq<Option<PodStatus>>, podName: string, container: string)
    returns (r: Result<Option<ContainerStateTerminated>, Error>)
    ensures r == Await(snapshots, podName, container, Terminated, "terminated")
  {
    r := AwaitContainerState(snapshots, podName, container, Terminated, "terminated");
  }

  /** The name a local file gets inside the tar: `/` + its path relative to the root when a root is given. */
  function ArcName(localFile: string, relativeLocalRoot: Option<string>, relpath: (string, string) -> string): string
  {
    if relativeLocalRoot.Some? then "/" + relpath(localFile, relativeLocalRoot.value) else localFile
  }

  /**
   * The `for local_file in local_files` loop: one tar entry (file, archive
   * name) per file in order, and `file_count` the number of files. A root is
   * a `Path`, which Python always treats as true, so only its absence
   * keeps the path as it is.
   */
  method TarEntries(localFiles: seq<string>, relativeLocalRoot: Option<string>, relpath: (string, string) -> string)
    returns (entries: seq<(string, string)>, fileCount: int)
    ensures fileCount == |localFiles| == |entries|
    ensures forall i :: 0 <= i < |localFiles| ==> entries[i] == (localFiles[i], ArcName(localFiles[i], relativeLocalRoot, relpath))
    ensures relativeLocalRoot.Some? ==> forall i :: 0 <= i < |localFiles| ==>
      entries[i].1 == "/" + relpath(localFiles[i], relativeLocalRoot.value)
    ensures relativeLocalRoot.None? ==> forall i :: 0 <= i < |localFiles| ==> entries[i].1 == localFiles[i]
  {
    entries := [];
    fileCount := 0;
    for i := 0 to |localFiles|
      invariant fileCount == i == |entries|
      invariant forall j :: 0 <= j < i ==> entries[j] == (localFiles[j], ArcName(localFiles[j], relativeLocalRoot, relpath))
    {
      var internalTarPath := if relativeLocalRoot.Some? then "/" + relpath(localFiles[i], relativeLocalRoot.value) else localFiles[i];
      entries := entries + [(localFiles[i], internalTarPath)];
      fileCount := fileCount + 1;
    }
  }

  function Min(a: int, b: int): int
  {
    if a < b then a else b
  }

  /** The successive `tar_buffer.read(packet_size)` results while `peek()` finds data. */
  function Packets(data: seq<Byte>, packetSize: nat): (r: seq<seq<Byte>>)
    requires packetSize > 0
    decreases |data|
  {
    if |data| == 0 then []
    else
      var n := Min(packetSize, |data|);
      [data[..n]] + Packets(data[n..], packetSize)
  }

  /** `ceil(tar_size / packet_size)`, on integers. */
  function CeilDiv(n: nat, d: nat): nat
    requires d > 0
  {
    (n + d - 1) / d
  }

  function Concat(chunks: seq<seq<Byte>>): seq<Byte>
  {
    if |chunks| == 0 then [] else chunks[0] + Concat(chunks[1..])
  }

  /** The packets put back together are the buffer. */
  lemma {:induction false} PacketsConcat(data: seq<Byte>, packetSize: nat)
    requires packetSize > 0
    ensures Concat(Packets(data, packetSize)) == data
    decreases |data|
  {
    if |data| > 0 {
      var n := Min(packetSize, |data|);
      PacketsConcat(data[n..], packetSize);
      assert data == data[..n] + data[n..];
    }
  }

  /** Every packet is non-empty and at most `packetSize` long, every one but the last exactly that long. */
  lemma {:induction false} PacketSizes(data: seq<Byte>, packetSize: nat)
    requires packetSize > 0
    ensures forall i :: 0 <= i < |Packets(data, packetSize)| ==> 0 < |Packets(data, packetSize)[i]| <= packetSize
    ensures forall i :: 0 <= i < |Packets(data, packetSize)| - 1 ==> |Packets(data, packetSize)[i]| == packetSize
    decreases |data|
  {
    if |data| > 0 {
      var n := Min(packetSize, |data|);
      var ps := Packets(data, packetSize);
      var rest := Packets(data[n..], packetSize);
      PacketSizes(data[n..], packetSize);
      assert ps == [data[..n]] + rest;
      forall i | 0 <= i < |ps|
        ensures 0 < |ps[i]| <= packetSize
        ensures i < |ps| - 1 ==> |ps[i]| == packetSize
      {
        if i > 0 {
          assert ps[i] == rest[i - 1];
          assert 0 < |rest[i - 1]| <= packetSize;
          assert i - 1 < |rest| - 1 ==> |rest[i - 1]| == packetSize;
        } else {
          assert ps[0] == data[..n] && |data[..n]| == n;
          if i < |ps| - 1 {
            assert |rest| > 0;
            assert |data[n..]| > 0;
          }
        }
      }
    }
  }

  lemma MulMono(d: nat, x: nat, y: nat)
    requires x <= y
    ensures d * x <= d * y
  {
    assert d * y == d * x + d * (y - x);
  }

  lemma MulStep(d: nat, x: nat, y: nat)
    requires x < y
    ensures d * x + d <= d * y
  {
    MulMono(d, x + 1, y);
    assert d * (x + 1) == d * x + d;
  }

  /** Euclidean division has one quotient. */
  lemma DivUnique(a: nat, d: nat, k: nat, r: nat)
    requires d > 0 && 0 <= r < d && a == d * k + r
    ensures a / d == k
  {
    var q := a / d;
    assert a == d * q + a % d;
    if q < k {
      MulStep(d, q, k);
      assert false;
    } else if q > k {
      MulStep(d, k, q);
      assert false;
    }
  }

  lemma CeilDivStep(n: nat, d: nat)
    requires 0 < d < n
    ensures CeilDiv(n, d) == 1 + CeilDiv(n - d, d)
  {
    var x := n - d + d - 1;
    var q, r := x / d, x % d;
    assert x == d * q + r;
    assert d * (q + 1) == d * q + d;
    DivUnique(x + d, d, q + 1, r);
  }

  lemma CeilDivOne(n: nat, d: nat)
    requires 0 < n <= d
    ensures CeilDiv(n, d) == 1
  {
    DivUnique(n + d - 1, d, 1, n - 1);
  }

  /** There are `ceil(size / packetSize)` packets. */
  lemma {:induction false} PacketCount(data: seq<Byte>, packetSize: nat)
    requires packetSize > 0
    ensures |Packets(data, packetSize)| == CeilDiv(|data|, packetSize)
    decreases |data|
  {
    if |data| > 0 {
      var n := Min(packetSize, |data|);
      PacketCount(data[n..], packetSize);
      if |data| <= packetSize {
        CeilDivOne(|data|, packetSize);
      } else {
        CeilDivStep(|data|, packetSize);
      }
    }
  }

  /** The data lines: each packet base64-encoded. */
  function DataLines(data: seq<Byte>, packetSize: nat): (r: seq<string>)
    requires packetSize > 0
  {
    var ps := Packets(data, packetSize);
    seq(|ps|, i requires 0 <= i < |ps| => Encode(ps[i]))
  }

  /** The first data line is the first packet's encoding; the rest come from the remaining data. */
  lemma DataLinesStep(data: seq<Byte>, packetSize: nat)
    requires packetSize > 0 && |data| > 0
    ensures var n := Min(packetSize, |data|);
      DataLines(data, packetSize) == [Encode(data[..n])] + DataLines(data[n..], packetSize)
  {
    var n := Min(packetSize, |data|);
    var ps := Packets(data, packetSize);
    assert ps == [data[..n]] + Packets(data[n..], packetSize);
    var rest := DataLines(data[n..], packetSize);
    assert |DataLines(data, packetSize)| == |[Encode(data[..n])] + rest|;
    forall i | 0 <= i < |ps|
      ensures DataLines(data, packetSize)[i] == ([Encode(data[..n])] + rest)[i]
    {
      if i > 0 {
        assert ps[i] == Packets(data[n..], packetSize)[i - 1];
      }
    }
  }

  function HeaderLine(remoteTempFilename: string): string
  {
    "cat <<EOF > /tmp/" + remoteTempFilename + ".tar.gz.b64"
  }

  function DecodeLine(remoteTempFilename: string): string
  {
    "base64 -d /tmp/" + remoteTempFilename + ".tar.gz.b64 >> /tmp/" + remoteTempFilename + ".tar.gz"
  }

  function ExtractLine(remoteTempFilename: string, remotePath: string): string
  {
    "tar xvf /tmp/" + remoteTempFilename + ".tar.gz -C " + remotePath
  }

  /** Everything `command_gen` yields, in order. */
  function Commands(remoteTempFilename: string, data: seq<Byte>, packetSize: nat, remotePath: string): (cs: seq<string>)
    requires packetSize > 0
    ensures |cs| == |DataLines(data, packetSize)| + 4
    ensures cs[0] == HeaderLine(remoteTempFilename)
    ensures cs[1..|cs| - 3] == DataLines(data, packetSize)
    ensures cs[|cs| - 3..] == ["EOF", DecodeLine(remoteTempFilename), ExtractLine(remoteTempFilename, remotePath)]
  {
    [HeaderLine(remoteTempFilename)] + DataLines(data, packetSize)
      + ["EOF", DecodeLine(remoteTempFilename), ExtractLine(remoteTempFilename, remotePath)]
  }

  /**
   * `command_gen` driven to the end: the heredoc header, one base64 line
   * per read from the buffer, then `EOF`, the decode line and the extract
   * line. `data` is the tar buffer after `seek(0)`.
   */
  method CommandGen(remoteTempFilename: string, data: seq<Byte>, packetSize: nat, remotePath: string)
    returns (commands: seq<string>)
    requires packetSize > 0
    ensures commands == Commands(remoteTempFilename, data, packetSize, remotePath)
  {
    commands := [HeaderLine(remoteTempFilename)];
    var position := 0;
    while position < |data|
      invariant 0 <= position <= |data|
      invariant commands + DataLines(data[position..], packetSize) == [HeaderLine(remoteTempFilename)] + DataLines(data, packetSize)
      decreases |data| - position
    {
      var n := Min(packetSize, |data| - position);
      var packet := data[position..position + n];
      var rest := data[position..];
      assert rest[..n] == packet && rest[n..] == data[position + n..];
      DataLinesStep(rest, packetSize);
      commands := commands + [Encode(packet)];
      position := position + n;
    }
    assert DataLines(data[position..], packetSize) == [];
    commands := commands + ["EOF", DecodeLine(remoteTempFilename), ExtractLine(remoteTempFilename, remotePath)];
  }

  /**
   * The line count matches the progress total `ceil(tar_size / packet_size) + 4`,
   * and no command is empty, so the sending loop's `if next_command` stops
   * only once the generator is exhausted.
   */
  lemma CommandCount(remoteTempFilename: string, data: seq<Byte>, packetSize: nat, remotePath: string)
    requires packetSize > 0
    ensures var cs := Commands(remoteTempFilename, data, packetSize, remotePath);
      && |cs| == CeilDiv(|data|, packetSize) + 4
      && forall i :: 0 <= i < |cs| ==> cs[i] != ""
  {
    PacketCount(data, packetSize);
    PacketSizes(data, packetSize);
    var cs := Commands(remoteTempFilename, data, packetSize, remotePath);
    var ps := Packets(data, packetSize);
    var lines := DataLines(data, packetSize);
    var tail := ["EOF", DecodeLine(remoteTempFilename), ExtractLine(remoteTempFilename, remotePath)];
    assert cs == [HeaderLine(remoteTempFilename)] + lines + tail;
    forall i | 0 <= i < |cs|
      ensures cs[i] != ""
    {
      if i == 0 {
        assert |HeaderLine(remoteTempFilename)| > 0;
      } else if i <= |lines| {
        assert cs[i] == lines[i - 1] == Encode(ps[i - 1]);
        assert |Encode(ps[i - 1])| > 0;
      } else {
        assert cs[i] == tail[i - 1 - |lines|];
        assert |tail[i - 1 - |lines|]| > 0;
      }
    }
  }

  /** Decoding every data line and concatenating the results gives the tar buffer back. */
  lemma DataLinesRoundTrip(data: seq<Byte>, packetSize: nat)
    requires packetSize > 0
    ensures var lines := DataLines(data, packetSize);
      && (forall i :: 0 <= i < |lines| ==> Decode(lines[i]).Some?)
      && Concat(seq(|lines|, i requires 0 <= i < |lines| && Decode(lines[i]).Some? => Decode(lines[i]).value)) == data
  {
    var lines := DataLines(data, packetSize);
    var ps := Packets(data, packetSize);
    forall i | 0 <= i < |lines|
      ensures Decode(lines[i]) == Some(ps[i])
    {
      DecodeEncode(ps[i]);
    }
    PacketsConcat(data, packetSize);
    assert seq(|lines|, i requires 0 <= i < |lines| && Decode(lines[i]).Some? => Decode(lines[i]).value) == ps;
  }

  /** The `.b64` file the heredoc writes: every data line sent, each followed by a line break. */
  function HeredocText(lines: seq<string>): string
  {
    if |lines| == 0 then "" else lines[0] + "\n" + HeredocText(lines[1..])
  }

  /** The lines one after another, with nothing between them. */
  function Joined(lines: seq<string>): string
  {
    if |lines| == 0 then "" else lines[0] + Joined(lines[1..])
  }

  /** The text with its line breaks taken out. */
  function WithoutNewlines(s: string): (r: string)
    ensures forall i :: 0 <= i < |r| ==> r[i] != '\n'
  {
    if |s| == 0 then "" else (if s[0] == '\n' then "" else [s[0]]) + WithoutNewlines(s[1..])
  }

  /**
   * `base64 -d` run on the pod over the whole `.b64` file: line breaks are
   * skipped, as coreutils' decoder does, and the rest is decoded as one text.
   */
  function PodDecode(text: string): Option<seq<Byte>>
  {
    Decode(WithoutNewlines(text))
  }

  lemma {:induction false} WithoutNewlinesAppend(a: string, b: string)
    ensures WithoutNewlines(a + b) == WithoutNewlines(a) + WithoutNewlines(b)
    decreases |a|
  {
    if |a| > 0 {
      assert (a + b)[0] == a[0] && (a + b)[1..] == a[1..] + b;
      WithoutNewlinesAppend(a[1..], b);
    } else {
      assert a + b == b;
    }
  }

  lemma {:induction false} WithoutNewlinesKeeps(s: string)
    requires forall i :: 0 <= i < |s| ==> s[i] != '\n'
    ensures WithoutNewlines(s) == s
    decreases |s|
  {
    if |s| > 0 {
      WithoutNewlinesKeeps(s[1..]);
      assert s == [s[0]] + s[1..];
    }
  }

  /** Taking the line breaks out of the heredoc's file joins lines that hold none. */
  lemma {:induction false} HeredocWithoutNewlines(lines: seq<string>)
    requires forall k, i :: 0 <= k < |lines| && 0 <= i < |lines[k]| ==> lines[k][i] != '\n'
    ensures WithoutNewlines(HeredocText(lines)) == Joined(lines)
    decreases |lines|
  {
    if |lines| > 0 {
      HeredocWithoutNewlines(lines[1..]);
      WithoutNewlinesAppend(lines[0], "\n" + HeredocText(lines[1..]));
      WithoutNewlinesAppend("\n", HeredocText(lines[1..]));
      WithoutNewlinesKeeps(lines[0]);
      assert lines[0] + "\n" + HeredocText(lines[1..]) == lines[0] + ("\n" + HeredocText(lines[1..]));
    }
  }

  /** With packets a multiple of three bytes long, the data lines joined are the Base64 of the whole buffer. */
  lemma {:induction false} DataLinesJoined(data: seq<Byte>, packetSize: nat)
    requires packetSize > 0 && packetSize % 3 == 0
    ensures Joined(DataLines(data, packetSize)) == Encode(data)
    decreases |data|
  {
    if |data| > 0 {
      var n := Min(packetSize, |data|);
      var head, tail := data[..n], data[n..];
      assert Joined(DataLines(data, packetSize)) == Encode(head) + Joined(DataLines(tail, packetSize)) by {
        DataLinesStep(data, packetSize);
        var lines := DataLines(data, packetSize);
        assert lines[0] == Encode(head) && lines[1..] == DataLines(tail, packetSize);
      }
      DataLinesJoined(tail, packetSize);
      assert Encode(head) + Encode(tail) == Encode(data) by {
        if n == packetSize {
          EncodeAppend(head, tail);
          assert head + tail == data;
        } else {
          assert tail == [] && head == data;
        }
      }
    }
  }

  /**
   * The upload round trip: with packets a multiple of three bytes long, the
   * pod's `base64 -d` over the file the heredoc wrote gives back exactly the
   * tar buffer.
   */
  lemma UploadRoundTrip(data: seq<Byte>, packetSize: nat)
    requires packetSize > 0 && packetSize % 3 == 0
    ensures PodDecode(HeredocText(DataLines(data, packetSize))) == Some(data)
  {
    var lines := DataLines(data, packetSize);
    forall k | 0 <= k < |lines|
      ensures forall i :: 0 <= i < |lines[k]| ==> lines[k][i] != '\n'
    {
      EncodeIsOneLine(Packets(data, packetSize)[k]);
    }
    HeredocWithoutNewlines(lines);
    DataLinesJoined(data, packetSize);
    DecodeEncode(data);
  }
}
