/** The names the operator builds from a Service's namespace and name. */
module Names {
  import opened Text

  /** The API server admits only labels of lower-case letters, digits and '-'. */
  predicate IsLabel(s: string) {
    s != "" && forall c :: c in s ==> 'a' <= c <= 'z' || IsDigit(c) || c == '-'
  }

  datatype RawKey = RawKey(ns: string, name: string)

  type Key = k: RawKey | IsLabel(k.ns) && IsLabel(k.name) witness RawKey("default", "svc")

  /** The owner recorded in the ip-allocations ConfigMap. */
  function Identifier(k: Key): string { k.ns + "/" + k.name }

  /** The file that carries the service's NGINX configuration. */
  function Path(cluster: string, k: Key): string {
    "/etc/nginx/conf.d/vip-" + cluster + "-" + k.ns + "-" + k.name + ".conf"
  }

  /** The upstream name inside that file. */
  function Upstream(cluster: string, k: Key): string { cluster + "_" + k.ns + "_" + k.name }

  /** The recorded owner tells namespace and name, in this order. */
  lemma IdentifierParts(k: Key)
    ensures Split(Identifier(k), '/') == [k.ns, k.name]
  {
    SplitAt(k.ns, '/', k.name);
    SplitWithout(k.name, '/');
    assert Identifier(k) == k.ns + ['/'] + k.name;
  }

  lemma FiveParts(a: string, b: string, c: string, d: string, e: string, sep: char)
    requires sep !in a && sep !in b && sep !in c && sep !in d && sep !in e
    ensures Split(a + [sep] + (b + [sep] + (c + [sep] + (d + [sep] + e))), sep) == [a, b, c, d, e]
  {
    hide Split;
    SplitAt(a, sep, b + [sep] + (c + [sep] + (d + [sep] + e)));
    SplitAt(b, sep, c + [sep] + (d + [sep] + e));
    SplitAt(c, sep, d + [sep] + e);
    SplitAt(d, sep, e);
    SplitWithout(e, sep);
  }

  function FileName(cluster: string, k: Key): string { "vip-" + cluster + "-" + k.ns + "-" + k.name + ".conf" }

  lemma PathIsIn(cluster: string, k: Key)
    ensures Path(cluster, k) == "" + ['/'] + ("etc" + ['/'] + ("nginx" + ['/'] + ("conf.d" + ['/'] + FileName(cluster, k))))
  {
  }

  lemma FileNameParts(cluster: string, k: Key)
    requires '/' !in cluster
    ensures '/' !in FileName(cluster, k)
  {
  }

  /** The file lies in the directory from which NGINX reads every .conf file. */
  lemma PathParts(cluster: string, k: Key)
    requires '/' !in cluster
    ensures Split(Path(cluster, k), '/') == ["", "etc", "nginx", "conf.d", "vip-" + cluster + "-" + k.ns + "-" + k.name + ".conf"]
  {
    PathIsIn(cluster, k);
    FileNameParts(cluster, k);
    hide Path, Split;
    FiveParts("", "etc", "nginx", "conf.d", FileName(cluster, k), '/');
  }

  /** The upstream name tells cluster, namespace and name, in this order. */
  lemma UpstreamParts(cluster: string, k: Key)
    requires '_' !in cluster
    ensures Split(Upstream(cluster, k), '_') == [cluster, k.ns, k.name]
  {
    var rest := k.ns + "_" + k.name;
    assert Upstream(cluster, k) == cluster + ['_'] + rest && rest == k.ns + ['_'] + k.name;
    SplitAt(cluster, '_', rest);
    SplitAt(k.ns, '_', k.name);
    SplitWithout(k.name, '_');
  }

  lemma JoinedInjective(a: string, b: string, c: string, d: string, sep: char)
    requires sep !in a && sep !in c && a + [sep] + b == c + [sep] + d
    ensures a == c && b == d
  {
    SplitAt(a, sep, b);
    SplitAt(c, sep, d);
    JoinSplit(b, sep);
    JoinSplit(d, sep);
    assert ([a] + Split(b, sep))[1..] == Split(b, sep) && ([c] + Split(d, sep))[1..] == Split(d, sep);
  }

  /** Two services never share an identifier, nor an upstream name. */
  lemma IdentifierInjective(k: Key, l: Key)
    requires Identifier(k) == Identifier(l)
    ensures k == l
  {
    JoinedInjective(k.ns, k.name, l.ns, l.name, '/');
  }

  lemma UpstreamInjective(cluster: string, k: Key, l: Key)
    requires Upstream(cluster, k) == Upstream(cluster, l)
    ensures k == l
  {
    var u, v := Upstream(cluster, k), Upstream(cluster, l);
    assert u[|cluster| + 1..] == k.ns + ['_'] + k.name;
    assert v[|cluster| + 1..] == l.ns + ['_'] + l.name;
    JoinedInjective(k.ns, k.name, l.ns, l.name, '_');
  }

  lemma SeparatorInTail(a: string, b: string, c: string, d: string, sep: char)
    requires a + [sep] + b == c + [sep] + d && |a| < |c|
    ensures sep in b
  {
    var s := a + [sep] + b;
    assert s == c + [sep] + d;
    assert s[|c|] == sep && s[|c|] == b[|c| - |a| - 1];
  }

  lemma LastSeparator(a: string, b: string, c: string, d: string, sep: char)
    requires sep !in b && sep !in d && a + [sep] + b == c + [sep] + d
    ensures a == c && b == d
  {
    if |a| < |c| { SeparatorInTail(a, b, c, d, sep); }
    if |c| < |a| { SeparatorInTail(c, d, a, b, sep); }
    var s := a + [sep] + b;
    assert s == c + [sep] + d;
    assert s[..|a|] == a == c && s[|a| + 1..] == b == d;
  }

  /** Nor do services of different clusters that share the server. */
  lemma UpstreamNamesCluster(a: string, k: Key, b: string, l: Key)
    requires Upstream(a, k) == Upstream(b, l)
    ensures a == b && k == l
  {
    assert Upstream(a, k) == (a + "_" + k.ns) + ['_'] + k.name;
    assert Upstream(b, l) == (b + "_" + l.ns) + ['_'] + l.name;
    LastSeparator(a + "_" + k.ns, k.name, b + "_" + l.ns, l.name, '_');
    LastSeparator(a, k.ns, b, l.ns, '_');
  }

  /** The namespace and the name of the one overlap in a common middle part of the other's. */
  ghost predicate Nested(k: Key, l: Key) {
    exists m :: l.ns == k.ns + "-" + m && k.name == m + "-" + l.name
  }

  lemma PathIsJoined(cluster: string, k: Key, l: Key)
    ensures Path(cluster, k) == Path(cluster, l) <==> k.ns + "-" + k.name == l.ns + "-" + l.name
  {
    var before := "/etc/nginx/conf.d/vip-" + cluster + "-";
    var j, j' := k.ns + "-" + k.name, l.ns + "-" + l.name;
    assert Path(cluster, k) == before + j + ".conf" && Path(cluster, l) == before + j' + ".conf";
    assert Path(cluster, k)[|before|..|Path(cluster, k)| - 5] == j;
    assert Path(cluster, l)[|before|..|Path(cluster, l)| - 5] == j';
  }

  lemma JoinedSameLength(k: Key, l: Key)
    requires k.ns + "-" + k.name == l.ns + "-" + l.name && |k.ns| == |l.ns|
    ensures k == l
  {
    var j, n := k.ns + "-" + k.name, |k.ns|;
    assert j == l.ns + "-" + l.name;
    assert j[..n] == k.ns == l.ns[..n];
    assert j[n + 1..] == k.name == l.name;
  }

  lemma JoinedNested(k: Key, l: Key)
    requires k.ns + "-" + k.name == l.ns + "-" + l.name && |k.ns| <= |l.ns| && k != l
    ensures Nested(k, l)
  {
    var j, n := k.ns + "-" + k.name, |k.ns|;
    assert j == l.ns + "-" + l.name;
    assert j[..n] == k.ns == l.ns[..n];
    if n == |l.ns| { JoinedSameLength(k, l); }
    var m := l.ns[n + 1..];
    assert j[n] == '-' == l.ns[n];
    assert l.ns == k.ns + "-" + m;
    assert k.name == j[n + 1..] == m + "-" + l.name;
  }

  lemma NestedJoined(k: Key, l: Key)
    requires Nested(k, l)
    ensures k.ns + "-" + k.name == l.ns + "-" + l.name
  {
    var m :| l.ns == k.ns + "-" + m && k.name == m + "-" + l.name;
    assert k.ns + "-" + (m + "-" + l.name) == (k.ns + "-" + m) + "-" + l.name;
  }

  /** Two services share a path exactly if one is nested in the other. */
  lemma SharedPathExactly(cluster: string, k: Key, l: Key)
    requires k != l
    ensures Path(cluster, k) == Path(cluster, l) <==> Nested(k, l) || Nested(l, k)
  {
    PathIsJoined(cluster, k, l);
    if k.ns + "-" + k.name == l.ns + "-" + l.name {
      if |k.ns| <= |l.ns| { JoinedNested(k, l); } else { JoinedNested(l, k); }
    }
    if Nested(k, l) { NestedJoined(k, l); }
    if Nested(l, k) { NestedJoined(l, k); }
  }

  /** And some do: the parts are joined with a character they may contain. */
  lemma PathNotInjective(cluster: string)
    ensures exists k: Key, l: Key :: k != l && Path(cluster, k) == Path(cluster, l)
  {
    var k: Key, l: Key := RawKey("a", "b-c"), RawKey("a-b", "c");
    assert l.ns == k.ns + "-" + "b" && k.name == "b" + "-" + l.name;
    SharedPathExactly(cluster, k, l);
  }

  // ---------- Clusters that share the server ----------

  /** The name of the one cluster and the parts of the other's path overlap in a middle part. */
  ghost predicate NestedClusters(a: string, k: Key, b: string, l: Key) {
    exists m :: b == a + "-" + m && k.ns + "-" + k.name == m + "-" + (l.ns + "-" + l.name)
  }

  lemma PathsAreJoined(a: string, k: Key, b: string, l: Key)
    ensures Path(a, k) == Path(b, l) <==> a + "-" + (k.ns + "-" + k.name) == b + "-" + (l.ns + "-" + l.name)
  {
    var before := "/etc/nginx/conf.d/vip-";
    var i, j := a + "-" + (k.ns + "-" + k.name), b + "-" + (l.ns + "-" + l.name);
    assert Path(a, k) == before + i + ".conf" && Path(b, l) == before + j + ".conf";
    assert Path(a, k)[|before|..|Path(a, k)| - 5] == i;
    assert Path(b, l)[|before|..|Path(b, l)| - 5] == j;
  }

  lemma JoinedMiddle(a: string, x: string, b: string, y: string)
    requires a + "-" + x == b + "-" + y && |a| < |b|
    ensures var m := b[|a| + 1..]; b == a + "-" + m && x == m + "-" + y
  {
    var s, n := a + "-" + x, |a|;
    assert s == b + "-" + y;
    assert s[..n] == a == b[..n];
    assert s[n] == '-' == b[n];
    assert s[n + 1..] == x;
    assert s[n + 1..] == b[n + 1..] + "-" + y;
  }

  lemma JoinedEqual(a: string, x: string, b: string, y: string)
    requires a + "-" + x == b + "-" + y && |a| == |b|
    ensures a == b
  {
    var s := a + "-" + x;
    assert s == b + "-" + y;
    assert s[..|a|] == a == b;
  }

  lemma NestedClustersJoined(a: string, k: Key, b: string, l: Key)
    requires NestedClusters(a, k, b, l)
    ensures a + "-" + (k.ns + "-" + k.name) == b + "-" + (l.ns + "-" + l.name)
  {
    var m :| b == a + "-" + m && k.ns + "-" + k.name == m + "-" + (l.ns + "-" + l.name);
    assert a + "-" + (m + "-" + (l.ns + "-" + l.name)) == (a + "-" + m) + "-" + (l.ns + "-" + l.name);
  }

  /** Services of two different clusters share a path exactly if the clusters are nested so. */
  lemma ClustersSharePathExactly(a: string, k: Key, b: string, l: Key)
    requires a != b
    ensures Path(a, k) == Path(b, l) <==> NestedClusters(a, k, b, l) || NestedClusters(b, l, a, k)
  {
    PathsAreJoined(a, k, b, l);
    var x, y := k.ns + "-" + k.name, l.ns + "-" + l.name;
    if a + "-" + x == b + "-" + y {
      if |a| == |b| {
        JoinedEqual(a, x, b, y);
      } else if |a| < |b| {
        JoinedMiddle(a, x, b, y);
      } else {
        JoinedMiddle(b, y, a, x);
      }
    }
    if NestedClusters(a, k, b, l) { NestedClustersJoined(a, k, b, l); }
    if NestedClusters(b, l, a, k) { NestedClustersJoined(b, l, a, k); }
  }

  /** And some do, whatever the one cluster is called. */
  lemma ClustersCanSharePath(a: string)
    ensures exists b, k: Key, l: Key :: a != b && Path(a, k) == Path(b, l)
  {
    var k: Key, l: Key := RawKey("b", "c-d"), RawKey("c", "d");
    var b := a + "-" + "b";
    assert |b| != |a|;
    assert k.ns + "-" + k.name == "b" + "-" + (l.ns + "-" + l.name);
    ClustersSharePathExactly(a, k, b, l);
  }
}
