/** Object names, and the text functions which build them and take them apart. */
module Names {

  function LowerChar(c: char): char {
    if 'A' <= c <= 'Z' then (c as int + 32) as char else c
  }

  function ToLower(s: string): (r: string)
    ensures |r| == |s|
  {
    seq(|s|, i requires 0 <= i < |s| => LowerChar(s[i]))
  }

  predicate IsLower(s: string) {
    forall c | c in s :: !('A' <= c <= 'Z')
  }

  /** The name of a PersistentVolumeClaim: Kubernetes admits no upper-case letter in it. */
  type Pvc = s: string | s != "" && IsLower(s) witness "p"

  /** The random part which a ReplicaSet appends, after a dash, to the name of its pod. */
  type Suffix = s: string | '-' !in s witness ""

  /** The name of the ReplicaSet, of the service and of the replication id of a PVC. */
  function ReplicaName(directory: string, pvc: Pvc): (r: string)
    ensures |r| == |directory| + 1 + |pvc|
    ensures r[|directory| + 1..] == pvc
  {
    var text := directory + "-" + pvc;
    var r := ToLower(text);
    assert forall i | 0 <= i < |pvc| :: text[|directory| + 1 + i] == pvc[i] && pvc[i] in pvc;
    assert r[|directory| + 1..] == pvc;
    r
  }

  function SeedConfigMapName(directory: string): string {
    ToLower(directory + "-seed")
  }

  function SeedJobName(directory: string, pvc: Pvc): (r: string)
    ensures |r| == |directory| + |pvc| + 6
    ensures r[..|directory| + 1 + |pvc|] == ReplicaName(directory, pvc)
  {
    ReplicaName(directory, pvc) + "-seed"
  }

  /** The name of the proxy deployment, of its service and of its ConfigMap. */
  function ProxyName(directory: string): string {
    ToLower(directory + "-proxy")
  }

  /** The index of the last c in s, or -1. */
  function LastIndex(s: string, c: char): (k: int)
    ensures -1 <= k < |s|
    ensures k >= 0 ==> s[k] == c
    ensures forall i | k < i < |s| :: s[i] != c
  {
    if s == "" then -1
    else if s[|s| - 1] == c then |s| - 1
    else LastIndex(s[..|s| - 1], c)
  }

  /** The text before the last dash; the source panics when there is none. */
  function DeploymentName(podName: string): string
    requires '-' in podName
  {
    podName[..LastIndex(podName, '-')]
  }

  /** The name which a ReplicaSet gives to its pod. */
  function PodName(owner: string, suffix: Suffix): (r: string)
    ensures '-' in r && DeploymentName(r) == owner
    ensures r[|owner|..] == "-" + suffix
  {
    var r := owner + "-" + suffix;
    assert forall i | |owner| < i < |r| :: r[i] == suffix[i - |owner| - 1];
    assert r[|owner|] == '-';
    r
  }

  /** Within one directory, one name is one PVC; the names of jobs follow. */
  lemma NamesAreInjective(directory: string, p: Pvc, q: Pvc)
    ensures ReplicaName(directory, p) == ReplicaName(directory, q) <==> p == q
    ensures SeedJobName(directory, p) == SeedJobName(directory, q) <==> p == q
  {
    if SeedJobName(directory, p) == SeedJobName(directory, q) {
      assert ReplicaName(directory, p) == ReplicaName(directory, q);
    }
  }

  /** A name has no upper-case letter, and a directory without any is its beginning as it is. */
  lemma NamesAreLower(directory: string, p: Pvc)
    ensures IsLower(ReplicaName(directory, p)) && IsLower(ProxyName(directory)) && IsLower(SeedConfigMapName(directory))
    ensures IsLower(directory) ==>
      ReplicaName(directory, p) == directory + "-" + p && ProxyName(directory) == directory + "-proxy"
      && SeedConfigMapName(directory) == directory + "-seed"
  {
    LowerCase(directory + "-" + p);
    LowerCase(directory + "-proxy");
    LowerCase(directory + "-seed");
    LowerJoined(directory, "-" + p);
    LowerJoined(directory, "-proxy");
    LowerJoined(directory, "-seed");
    assert directory + "-" + p == directory + ("-" + p);
    assert forall c | c in "-" + p :: c == '-' || c in p;
    hide ToLower;
  }

  lemma LowerJoined(a: string, b: string)
    ensures IsLower(a) && IsLower(b) ==> IsLower(a + b)
  {
    assert forall c | c in a + b :: c in a || c in b;
  }

  lemma LowerCase(s: string)
    ensures IsLower(ToLower(s)) && (IsLower(s) ==> ToLower(s) == s)
  {
    forall i | 0 <= i < |s| ensures !('A' <= ToLower(s)[i] <= 'Z') && (IsLower(s) ==> ToLower(s)[i] == s[i]) {
      assert s[i] in s;
    }
  }

  /** A replica takes the name of the proxy exactly when its PVC is called "proxy". */
  lemma ProxyNameClash(directory: string, p: Pvc)
    ensures ReplicaName(directory, p) == ProxyName(directory) <==> p == "proxy"
  {
    var clash: Pvc := "proxy";
    assert directory + "-" + clash == directory + "-proxy";
    assert ReplicaName(directory, clash) == ProxyName(directory);
  }

  /** The names which are those of some replica of the directory. */
  predicate IsReplicaName(directory: string, name: string) {
    |directory| + 1 < |name| && name[..|directory| + 1] == ToLower(directory + "-") && IsLower(name[|directory| + 1..])
  }

  function PvcNamed(directory: string, name: string): (p: Pvc)
    requires IsReplicaName(directory, name)
    ensures ReplicaName(directory, p) == name
  {
    var p: Pvc := name[|directory| + 1..];
    LowerParts(directory, p);
    assert name == name[..|directory| + 1] + p;
    p
  }

  /** The name is the lower-case directory, a dash, and the PVC. */
  lemma LowerParts(directory: string, p: Pvc)
    ensures ReplicaName(directory, p) == ToLower(directory + "-") + p
    ensures ToLower(directory + "-") == ToLower(directory) + "-"
  {
    var r := ReplicaName(directory, p);
    assert r == r[..|directory| + 1] + r[|directory| + 1..];
    assert r[..|directory| + 1] == ToLower(directory + "-");
  }

  lemma ReplicaNameIsOne(directory: string, p: Pvc)
    ensures IsReplicaName(directory, ReplicaName(directory, p)) && PvcNamed(directory, ReplicaName(directory, p)) == p
  {
    LowerParts(directory, p);
    var r := ReplicaName(directory, p);
    assert r[..|directory| + 1] == ToLower(directory + "-");
  }

  /** When the one directory's part of the names begins the other's, there are PVCs with the same replica name. */
  lemma PrefixClashes(d: string, e: string) returns (p: Pvc, q: Pvc)
    requires ToLower(d) + "-" <= ToLower(e) + "-"
    ensures ReplicaName(d, p) == ReplicaName(e, q)
  {
    var x, y := ToLower(d) + "-", ToLower(e) + "-";
    var more := y[|x|..];
    assert forall c | c in more :: c in y;
    assert IsLower(ToLower(e));
    q := "q";
    p := more + "q";
    LowerParts(d, p);
    LowerParts(e, q);
    assert y == x + more && x + (more + "q") == y + "q";
  }

  lemma ConfigMapNamesDiffer(directory: string)
    ensures SeedConfigMapName(directory) != ProxyName(directory)
  {
    assert |SeedConfigMapName(directory)| == |directory| + 5 && |ProxyName(directory)| == |directory| + 6;
  }

  /** Two directories of one namespace can compute the same name exactly when one's part of the names begins the other's. */
  lemma DirectoriesCanClash(d: string, e: string)
    ensures (exists p: Pvc, q: Pvc :: ReplicaName(d, p) == ReplicaName(e, q))
            <==> ToLower(d) + "-" <= ToLower(e) + "-" || ToLower(e) + "-" <= ToLower(d) + "-"
  {
    if p: Pvc, q: Pvc :| ReplicaName(d, p) == ReplicaName(e, q) {
      LowerParts(d, p);
      LowerParts(e, q);
      var x, y, n := ToLower(d) + "-", ToLower(e) + "-", ReplicaName(d, p);
      assert x <= n && y <= n;
    }
    if ToLower(d) + "-" <= ToLower(e) + "-" {
      var p, q := PrefixClashes(d, e);
    } else if ToLower(e) + "-" <= ToLower(d) + "-" {
      var q, p := PrefixClashes(e, d);
    }
  }
}

/** Label sets and the label selectors built from them. */
module Labels {
  import opened Names

  type LabelSet = map<string, string>

  const PVC_LABEL := "app.kubernetes.io/pvc-name"
  const KIND := "app.kubernetes.io/kind"
  const APP := "app.kubernetes.io/app"
  const CR_NAME := "app.kubernetes.io/cr-name"
  const CREATED_BY := "app.kubernetes.io/created-by"
  const PART_OF := "app.kubernetes.io/part-of"

  function WithPvc(labels: LabelSet, pvc: string): LabelSet {
    if pvc != "" then labels[PVC_LABEL := pvc] else labels
  }

  function ForApp(name: string, pvc: string): LabelSet {
    WithPvc(map[CREATED_BY := "verify-directory-operator", PART_OF := "verify-directory", CR_NAME := name], pvc)
  }

  function ForPod(name: string, pod: string, pvc: string): LabelSet {
    WithPvc(map[KIND := "IBMSecurityVerifyDirectory", APP := name, CR_NAME := pod], pvc)
  }

  function ForReplica(name: string, pvc: string): LabelSet {
    WithPvc(map[KIND := "IBMSecurityVerifyDirectory", APP := name], pvc)
  }

  /** The labels of the proxy's pods. */
  function ForProxy(name: string): LabelSet {
    map[KIND := "IBMSecurityVerifyDirectory", CR_NAME := ProxyName(name)]
  }

  predicate Selects(selector: LabelSet, labels: LabelSet) {
    forall k | k in selector :: k in labels && labels[k] == selector[k]
  }

  /** The controller's listing selects the replica pods of its directory, and nothing else. */
  lemma ReplicaSelectorIsExact(name: string, other: string, pvc: Pvc)
    ensures Selects(ForReplica(name, ""), ForPod(other, ReplicaName(other, pvc), pvc)) <==> name == other
    ensures !Selects(ForReplica(name, ""), ForProxy(other))
    ensures ForPod(other, ReplicaName(other, pvc), pvc)[PVC_LABEL] == pvc
  {
    var pod := ForPod(other, ReplicaName(other, pvc), pvc);
    assert APP in ForReplica(name, "") && APP != KIND && APP != CR_NAME;
    assert pod[APP] == other && pod[KIND] == "IBMSecurityVerifyDirectory";
  }

  /** A replica's service selects the pods of that PVC of that directory, and nothing else. */
  lemma ServiceSelectorIsExact(name: string, p: Pvc, other: string, q: Pvc)
    ensures Selects(ForPod(name, ReplicaName(name, p), p), ForPod(other, ReplicaName(other, q), q))
            <==> name == other && p == q
    ensures !Selects(ForPod(name, ReplicaName(name, p), p), ForProxy(other))
  {
    var selector := ForPod(name, ReplicaName(name, p), p);
    var pod := ForPod(other, ReplicaName(other, q), q);
    assert APP in selector && PVC_LABEL in selector;
    assert selector[APP] == name && pod[APP] == other;
    assert selector[PVC_LABEL] == p && pod[PVC_LABEL] == q;
  }

  /** The webhook's listing selects no pod which the operator creates. */
  lemma AppSelectorMissesEveryPod(name: string, other: string, pvc: Pvc)
    ensures !Selects(ForApp(name, ""), ForPod(other, ReplicaName(other, pvc), pvc))
    ensures !Selects(ForApp(name, ""), ForProxy(other))
  {
    assert CREATED_BY in ForApp(name, "");
  }
}
