/** Object and variable names (pkg/utils/naming.go) and when two of them can coincide. */
module Names {
  import opened Cluster

  function ServiceSecrets(workload: string): string
  {
    workload + "-secrets"
  }

  function Database(base: string, name: string): string
  {
    base + "-db-" + name
  }

  function CredentialsSecret(base: string, name: string): string
  {
    Database(base, name) + "-credentials"
  }

  function BackupCredsSecret(base: string, name: string): string
  {
    Database(base, name) + "-backup-creds"
  }

  function DatabasePVC(base: string, name: string): string
  {
    Database(base, name) + "-data"
  }

  function BackupCron(base: string, name: string): string
  {
    Database(base, name) + "-backup"
  }

  /** `strings.ToUpper` with hyphens as underscores, on ASCII text. */
  function EnvChar(c: char): char
  {
    if 'a' <= c <= 'z' then c - 'a' + 'A' else if c == '-' then '_' else c
  }

  function EnvText(name: string): (s: string)
    ensures |s| == |name| && forall i :: 0 <= i < |s| ==> s[i] == EnvChar(name[i])
  {
    if name == "" then "" else [EnvChar(name[0])] + EnvText(name[1..])
  }

  function DatabaseEnvName(name: string): string
  {
    "DATABASE_URL_" + EnvText(name)
  }

  /** The four variables of a bucket. */
  function StorageSecretKeys(name: string): seq<string>
  {
    var prefix := "STORAGE_" + EnvText(name);
    [prefix + "_ENDPOINT", prefix + "_BUCKET", prefix + "_ACCESS_KEY_ID", prefix + "_SECRET_ACCESS_KEY"]
  }

  /** The characters of a DNS-1123 label. */
  predicate IsLabel(name: string)
  {
    forall i :: 0 <= i < |name| ==> 'a' <= name[i] <= 'z' || '0' <= name[i] <= '9' || name[i] == '-'
  }

  /** A label in upper case: the letters of the same place, the digits as they are, an underscore for a hyphen. */
  lemma EnvTextOfLabel(name: string, i: nat)
    requires IsLabel(name) && i < |name|
    ensures |EnvText(name)| == |name|
    ensures 'a' <= name[i] <= 'z' ==>
      'A' <= EnvText(name)[i] <= 'Z' && EnvText(name)[i] as int - 'A' as int == name[i] as int - 'a' as int
    ensures '0' <= name[i] <= '9' ==> EnvText(name)[i] == name[i]
    ensures name[i] == '-' ==> EnvText(name)[i] == '_'
  {
  }

  /** The variables of a database and of a bucket, and the name of a workload's Secret. */
  lemma VariableNames(name: string, upper: string)
    requires upper == EnvText(name)
    ensures DatabaseEnvName(name) == "DATABASE_URL_" + upper
    ensures StorageSecretKeys(name) == ["STORAGE_" + upper + "_ENDPOINT", "STORAGE_" + upper + "_BUCKET",
      "STORAGE_" + upper + "_ACCESS_KEY_ID", "STORAGE_" + upper + "_SECRET_ACCESS_KEY"]
    ensures ServiceSecrets(name) == name + "-secrets"
  {
  }

  lemma SameTail<T>(head: seq<T>, a: seq<T>, b: seq<T>)
    ensures head + a == head + b ==> a == b
  {
    assert (head + a)[|head|..] == a && (head + b)[|head|..] == b;
  }

  lemma SameHead<T>(a: seq<T>, b: seq<T>, tail: seq<T>)
    ensures a + tail == b + tail ==> a == b
  {
    if a + tail == b + tail {
      assert |a| == |b|;
      assert (a + tail)[..|a|] == a && (b + tail)[..|b|] == b;
    }
  }

  lemma EnvTextIsInjective(a: string, b: string)
    requires IsLabel(a) && IsLabel(b) && EnvText(a) == EnvText(b)
    ensures a == b
  {
    assert |a| == |EnvText(b)| == |b|;
    forall i | 0 <= i < |a| ensures a[i] == b[i] {
      assert EnvText(a)[i] == EnvText(b)[i];
      SameEnvChar(a[i], b[i]);
    }
  }

  lemma SameEnvChar(c: char, d: char)
    requires ('a' <= c <= 'z' || '0' <= c <= '9' || c == '-') && ('a' <= d <= 'z' || '0' <= d <= '9' || d == '-')
    ensures EnvChar(c) == EnvChar(d) ==> c == d
  {
  }

  /** Databases with different label names never share a variable. */
  lemma EnvNamesAreDistinct(a: string, b: string)
    requires IsLabel(a) && IsLabel(b) && a != b
    ensures DatabaseEnvName(a) != DatabaseEnvName(b)
  {
    SameTail("DATABASE_URL_", EnvText(a), EnvText(b));
    if EnvText(a) == EnvText(b) {
      EnvTextIsInjective(a, b);
    }
  }

  // ---------------------------------------------------------------- a database's objects

  /** Every object a database may have: the only ones its provider may write. */
  function DatabaseKeys(base: string, name: string): set<Key>
  {
    Protected(base, name) + {Key(Secret, BackupCredsSecret(base, name)), Key(CronJob, BackupCron(base, name))}
  }

  /** The ones that hold or lead to its data. */
  function Protected(base: string, name: string): set<Key>
  {
    {Key(StatefulSet, Database(base, name)), Key(Cluster.Service, Database(base, name)),
     Key(PVC, DatabasePVC(base, name)), Key(Secret, CredentialsSecret(base, name))}
  }

  lemma SuffixesDiffer(a: string, b: string)
    ensures a + "-credentials" != b + "-backup-creds"
  {
    var s, t := a + "-credentials", b + "-backup-creds";
    assert s[|s| - 2] == 'l' && t[|t| - 2] == 'd';
  }

  /** Different databases have no object in common, whatever their names are. */
  lemma DatabasesShareNothing(base: string, a: string, b: string)
    requires a != b
    ensures DatabaseKeys(base, a) !! DatabaseKeys(base, b)
  {
    var da, db := Database(base, a), Database(base, b);
    SameTail(base + "-db-", a, b);
    SameHead(da, db, "-data");
    SameHead(da, db, "-credentials");
    SameHead(da, db, "-backup-creds");
    SameHead(da, db, "-backup");
    SuffixesDiffer(da, db);
    SuffixesDiffer(db, da);
  }
}
