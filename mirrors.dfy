/**
 The mirror table of the dependency manager: a map from an original repository
 URL to the repository that should be used instead and its version-control
 kind. `Get` looks a URL up, falling back on four built-in rewrites of
 well-known Go hosts to their GitHub homes; `Load` merges the records of the
 user's `mirrors.yaml` into the table.
 */
module Mirrors {
  import opened GoStrings

  datatype Option<T> = None | Some(value: T)

  /** A table entry: the replacement repository and its VCS kind. */
  datatype Mirror = Mirror(repo: string, vcs: string)

  /** The three results of `Get`: whether a mirror was found, the new
      repository location and the VCS kind. */
  datatype Lookup = Lookup(found: bool, repo: string, vcs: string)

  const NotFound := Lookup(false, "", "")

  /** The name of the Git VCS kind. */
  const Git := "git"

  /** The host/path fragments that the built-in rules replace, and the URL
      prefixes (the fragment after `https://`) that trigger them, in the order
      `Get` tries them. */
  const Scheme := "https://"
  const GolangX := "golang.org/x"
  const Grpc := "google.golang.org/grpc"
  const Genproto := "google.golang.org/genproto"
  const Api := "google.golang.org/api"
  const GolangXPrefix := Scheme + GolangX
  const GrpcPrefix := Scheme + Grpc
  const GenprotoPrefix := Scheme + Genproto
  const ApiPrefix := Scheme + Api

  predicate MatchesBuiltIn(k: string)
  {
    HasPrefix(k, GolangXPrefix) || HasPrefix(k, GrpcPrefix) ||
    HasPrefix(k, GenprotoPrefix) || HasPrefix(k, ApiPrefix)
  }

  /** A built-in rule: the fragment of the URL it replaces and what takes
      its place. */
  datatype Rule = Rule(fragment: string, replacement: string)

  /** The built-in rule that applies to `k`: the first of the four, in order,
      whose prefix `k` has. */
  function BuiltInRule(k: string): (r: Option<Rule>)
    ensures r.Some? <==> MatchesBuiltIn(k)
  {
    if HasPrefix(k, GolangXPrefix) then
      Some(Rule(GolangX, "github.com/golang"))
    else if HasPrefix(k, GrpcPrefix) then
      Some(Rule(Grpc, "github.com/grpc/grpc-go"))
    else if HasPrefix(k, GenprotoPrefix) then
      Some(Rule(Genproto, "github.com/google/go-genproto"))
    else if HasPrefix(k, ApiPrefix) then
      Some(Rule(Api, "github.com/googleapis/google-api-go-client"))
    else
      None
  }

  /** Look up `k`: a stored entry if `k` is a key of the table, otherwise the
      rewrite of `k` by the built-in rule that applies to it, as a Git
      repository, otherwise not found. The table is only read; the fallback
      entry is never stored. */
  function Get(mirrors: map<string, Mirror>, k: string): (r: Lookup)
    ensures r.found <==> k in mirrors || MatchesBuiltIn(k)
    ensures !r.found ==> r == NotFound
  {
    if k in mirrors then
      Lookup(true, mirrors[k].repo, mirrors[k].vcs)
    else
      match BuiltInRule(k)
      case Some(rule) => Lookup(true, ReplaceFirst(k, rule.fragment, rule.replacement), Git)
      case None => NotFound
  }

  /** An entry in the table is returned as stored, whatever its URL looks
      like: loaded entries take precedence over the built-in rules. */
  lemma GetStoredEntry(mirrors: map<string, Mirror>, k: string)
    requires k in mirrors
    ensures Get(mirrors, k) == Lookup(true, mirrors[k].repo, mirrors[k].vcs)
  {
  }

  /** A URL that is not in the table and has none of the built-in prefixes
      is not found, with empty location and kind. */
  lemma GetUnknown(mirrors: map<string, Mirror>, k: string)
    requires k !in mirrors && !MatchesBuiltIn(k)
    ensures Get(mirrors, k) == Lookup(false, "", "")
  {
  }

  /** Two prefixes that differ at position `i` cannot both begin `k`. */
  lemma PrefixesClash(k: string, p: string, q: string, i: nat)
    requires i < |p| && i < |q| && p[i] != q[i]
    ensures !(HasPrefix(k, p) && HasPrefix(k, q))
  {
  }

  /** The built-in rewrite shared by all four rules: a URL that begins with
      `https://` followed by `fragment` (a fragment that starts with `g`, a
      letter that does not occur in `https://`) has that fragment replaced by
      `replacement`, keeping the scheme and everything after the fragment. */
  lemma RewriteAfterScheme(k: string, fragment: string, replacement: string)
    requires |fragment| > 0 && fragment[0] == 'g'
    requires HasPrefix(k, Scheme + fragment)
    ensures ReplaceFirst(k, fragment, replacement) == Scheme + replacement + k[|Scheme + fragment|..]
  {
    ReplaceFirstAfterLead(k, Scheme, fragment, replacement);
  }

  /** The location every built-in rule points to. */
  const GitHub := Scheme + "github.com/"

  /** Every built-in rule replaces a fragment that follows `https://` at the
      start of `k` and begins with `g`, and replaces it with a path on
      `github.com`. */
  lemma BuiltInRuleShape(k: string)
    requires BuiltInRule(k).Some?
    ensures var rule := BuiltInRule(k).value;
      |rule.fragment| > 0 && rule.fragment[0] == 'g' &&
      HasPrefix(k, Scheme + rule.fragment) &&
      HasPrefix(rule.replacement, "github.com/")
  {
    ReplacementsOnGitHub();
  }

  /** The four replacements all name paths on `github.com`. */
  lemma ReplacementsOnGitHub()
    ensures HasPrefix("github.com/golang", "github.com/")
    ensures HasPrefix("github.com/grpc/grpc-go", "github.com/")
    ensures HasPrefix("github.com/google/go-genproto", "github.com/")
    ensures HasPrefix("github.com/googleapis/google-api-go-client", "github.com/")
  {
  }

  /** The rewrite a built-in rule performs: the scheme is kept, the fragment
      becomes the replacement and everything after the fragment is kept. */
  lemma GetBuiltIn(mirrors: map<string, Mirror>, k: string)
    requires k !in mirrors && BuiltInRule(k).Some?
    ensures var rule := BuiltInRule(k).value;
      Get(mirrors, k) == Lookup(true, Scheme + rule.replacement + k[|Scheme + rule.fragment|..], Git)
  {
    var rule := BuiltInRule(k).value;
    BuiltInRuleShape(k);
    RewriteAfterScheme(k, rule.fragment, rule.replacement);
  }

  /** `https://golang.org/x/...` becomes `https://github.com/golang/...`. */
  lemma GetGolangX(mirrors: map<string, Mirror>, k: string)
    requires k !in mirrors && HasPrefix(k, GolangXPrefix)
    ensures Get(mirrors, k) == Lookup(true, Scheme + "github.com/golang" + k[20..], Git)
  {
    GetBuiltIn(mirrors, k);
  }

  /** `https://google.golang.org/grpc...` becomes
      `https://github.com/grpc/grpc-go...`. */
  lemma GetGrpc(mirrors: map<string, Mirror>, k: string)
    requires k !in mirrors && HasPrefix(k, GrpcPrefix)
    ensures Get(mirrors, k) == Lookup(true, Scheme + "github.com/grpc/grpc-go" + k[30..], Git)
  {
    PrefixesClash(k, GrpcPrefix, GolangXPrefix, 10);
    GetBuiltIn(mirrors, k);
  }

  /** `https://google.golang.org/genproto...` becomes
      `https://github.com/google/go-genproto...`. */
  lemma GetGenproto(mirrors: map<string, Mirror>, k: string)
    requires k !in mirrors && HasPrefix(k, GenprotoPrefix)
    ensures Get(mirrors, k) == Lookup(true, Scheme + "github.com/google/go-genproto" + k[34..], Git)
  {
    PrefixesClash(k, GenprotoPrefix, GolangXPrefix, 10);
    PrefixesClash(k, GenprotoPrefix, GrpcPrefix, 27);
    GetBuiltIn(mirrors, k);
  }

  /** `https://google.golang.org/api...` becomes
      `https://github.com/googleapis/google-api-go-client...`. */
  lemma GetApi(mirrors: map<string, Mirror>, k: string)
    requires k !in mirrors && HasPrefix(k, ApiPrefix)
    ensures Get(mirrors, k) == Lookup(true, Scheme + "github.com/googleapis/google-api-go-client" + k[29..], Git)
  {
    PrefixesClash(k, ApiPrefix, GolangXPrefix, 10);
    PrefixesClash(k, ApiPrefix, GrpcPrefix, 26);
    PrefixesClash(k, ApiPrefix, GenprotoPrefix, 26);
    GetBuiltIn(mirrors, k);
  }

  /** A replacement that names a path on `github.com` turns any URL into a
      GitHub location. */
  lemma OnGitHub(replacement: string, rest: string)
    requires HasPrefix(replacement, "github.com/")
    ensures HasPrefix(Scheme + replacement + rest, GitHub)
  {
  }

  /** Whatever a built-in rule produces is a Git repository on GitHub. */
  lemma GetBuiltInIsGitHub(mirrors: map<string, Mirror>, k: string)
    requires k !in mirrors && MatchesBuiltIn(k)
    ensures Get(mirrors, k).vcs == Git
    ensures HasPrefix(Get(mirrors, k).repo, GitHub)
  {
    var rule := BuiltInRule(k).value;
    GetBuiltIn(mirrors, k);
    BuiltInRuleShape(k);
    OnGitHub(rule.replacement, k[|Scheme + rule.fragment|..]);
  }

  /** A GitHub URL has none of the built-in prefixes. */
  lemma GitHubMatchesNoBuiltIn(u: string)
    requires HasPrefix(u, GitHub)
    ensures !MatchesBuiltIn(u)
  {
    PrefixesClash(u, GitHub, GolangXPrefix, 9);
    PrefixesClash(u, GitHub, GrpcPrefix, 9);
    PrefixesClash(u, GitHub, GenprotoPrefix, 9);
    PrefixesClash(u, GitHub, ApiPrefix, 9);
  }

  /** Rewriting is not idempotent: looking up the URL a built-in rule
      produced finds nothing unless the table itself holds that URL. */
  lemma GetRewrittenNotFound(mirrors: map<string, Mirror>, k: string)
    requires k !in mirrors && Get(mirrors, k).found
    requires Get(mirrors, k).repo !in mirrors
    ensures Get(mirrors, Get(mirrors, k).repo) == NotFound
  {
    GetBuiltInIsGitHub(mirrors, k);
    GitHubMatchesNoBuiltIn(Get(mirrors, k).repo);
  }

  /** One record of `mirrors.yaml`. */
  datatype MirrorRepo = MirrorRepo(original: string, repo: string, vcs: string)

  /** What reading `mirrors.yaml` from the home directory can lead to: the
      file does not exist, `Stat` fails otherwise, reading or parsing fails,
      or the file yields its records in order. */
  datatype MirrorsFile =
    | NotExist
    | StatFailed(cause: string)
    | ReadFailed(cause: string)
    | Parsed(repos: seq<MirrorRepo>)

  const ReadErrorPrefix := "Error reading existing mirrors.yaml file: "

  function EntryOf(o: MirrorRepo): Mirror
  {
    Mirror(o.repo, o.vcs)
  }

  /** The table after storing the records of `repos` one after another. */
  function Merged(mirrors: map<string, Mirror>, repos: seq<MirrorRepo>): map<string, Mirror>
  {
    if repos == [] then
      mirrors
    else
      var last := repos[|repos| - 1];
      Merged(mirrors, repos[..|repos| - 1])[last.original := EntryOf(last)]
  }

  /** The position of the last record whose original URL is `k`. */
  function LastIndexOf(repos: seq<MirrorRepo>, k: string): (r: Option<nat>)
    ensures r.Some? ==> r.value < |repos| && repos[r.value].original == k
    ensures r.Some? ==> forall j :: r.value < j < |repos| ==> repos[j].original != k
    ensures r.None? ==> forall j :: 0 <= j < |repos| ==> repos[j].original != k
  {
    if repos == [] then
      None
    else if repos[|repos| - 1].original == k then
      Some(|repos| - 1)
    else
      LastIndexOf(repos[..|repos| - 1], k)
  }

  /** Last write wins: each original URL named by some record maps to the
      entry of the last such record; every other key keeps its old entry,
      and no key appears or disappears otherwise. */
  lemma {:induction false} MergedLastWins(mirrors: map<string, Mirror>, repos: seq<MirrorRepo>, k: string)
    ensures LastIndexOf(repos, k).Some? ==>
      k in Merged(mirrors, repos) &&
      Merged(mirrors, repos)[k] == EntryOf(repos[LastIndexOf(repos, k).value])
    ensures LastIndexOf(repos, k).None? ==>
      (k in Merged(mirrors, repos) <==> k in mirrors) &&
      (k in mirrors ==> Merged(mirrors, repos)[k] == mirrors[k])
  {
    if repos != [] {
      var init := repos[..|repos| - 1];
      if repos[|repos| - 1].original != k {
        MergedLastWins(mirrors, init, k);
      }
    }
  }

  /** Merging two batches in turn is merging their concatenation. */
  lemma {:induction false} MergedConcat(mirrors: map<string, Mirror>, a: seq<MirrorRepo>, b: seq<MirrorRepo>)
    ensures Merged(Merged(mirrors, a), b) == Merged(mirrors, a + b)
  {
    if b == [] {
      assert a + b == a;
    } else {
      var init := b[..|b| - 1];
      MergedConcat(mirrors, a, init);
      assert (a + b)[..|a + b| - 1] == a + init;
    }
  }

  /** After a merge, a URL named by a record is found with the repository
      and kind of its last record, even when a built-in rule also applies. */
  lemma GetAfterMerge(mirrors: map<string, Mirror>, repos: seq<MirrorRepo>, i: nat)
    requires i < |repos|
    requires forall j :: i < j < |repos| ==> repos[j].original != repos[i].original
    ensures Get(Merged(mirrors, repos), repos[i].original) == Lookup(true, repos[i].repo, repos[i].vcs)
  {
    var k := repos[i].original;
    MergedLastWins(mirrors, repos, k);
    var l := LastIndexOf(repos, k);
    assert l.Some?;
    assert l.value == i;
  }

  /** The package-level mirror table, empty at start-up. */
  class MirrorTable {
    var mirrors: map<string, Mirror>

    constructor ()
      ensures mirrors == map[]
    {
      mirrors := map[];
    }

    /** Merge the records of `mirrors.yaml` into the table, in file order.
        A missing file is not an error and changes nothing; a failing `Stat`
        or read returns an error before anything is stored. */
    method Load(file: MirrorsFile) returns (err: Option<string>)
      modifies this
      ensures file.NotExist? ==> err == None && mirrors == old(mirrors)
      ensures file.StatFailed? ==> err == Some(file.cause) && mirrors == old(mirrors)
      ensures file.ReadFailed? ==> err == Some(ReadErrorPrefix + file.cause) && mirrors == old(mirrors)
      ensures file.Parsed? ==> err == None && mirrors == Merged(old(mirrors), file.repos)
    {
      match file {
        case NotExist =>
          return None;
        case StatFailed(cause) =>
          return Some(cause);
        case ReadFailed(cause) =>
          return Some(ReadErrorPrefix + cause);
        case Parsed(repos) =>
          var i := 0;
          while i < |repos|
            invariant 0 <= i <= |repos|
            invariant mirrors == Merged(old(mirrors), repos[..i])
          {
            var o := repos[i];
            mirrors := mirrors[o.original := Mirror(o.repo, o.vcs)];
            i := i + 1;
            assert repos[..i][..i - 1] == repos[..i - 1];
          }
          assert repos[..i] == repos;
          return None;
      }
    }
  }

  /** The strings of the example below. */
  lemma ExampleIsGolangX()
    ensures HasPrefix("https://golang.org/x/tools", GolangXPrefix)
  {
  }

  lemma ExampleRewritten()
    ensures Scheme + "github.com/golang" + "https://golang.org/x/tools"[20..] == "https://github.com/golang/tools"
  {
  }

  lemma ExampleIsGitHub()
    ensures HasPrefix("https://github.com/golang/tools", GitHub)
  {
  }

  /** `golang.org/x/tools` is sent to GitHub, and the GitHub URL is then not
      a mirror of anything. */
  lemma RewriteExample()
    ensures Get(map[], "https://golang.org/x/tools") == Lookup(true, "https://github.com/golang/tools", "git")
    ensures Get(map[], "https://github.com/golang/tools") == NotFound
  {
    ExampleIsGolangX();
    ExampleRewritten();
    ExampleIsGitHub();
    GetGolangX(map[], "https://golang.org/x/tools");
    GitHubMatchesNoBuiltIn("https://github.com/golang/tools");
  }
}
