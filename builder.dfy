/**
 * The resolver builder (builder.go): derives the resolver's target from the
 * dial target's URL, builds the endpoint manager and its watch channel, and
 * reports their failures as gRPC status codes.
 */
module Builder {
  import opened Wrappers
  import opened Watch
  import opened Resolver

  /** The scheme this builder registers for. */
  const SchemeName: string := "nacos"

  /** The two parts of the dial target's URL that a build reads. */
  datatype TargetURL = TargetURL(path: string, opaquePart: string)

  /** The gRPC status codes a build can fail with. */
  datatype Code = InvalidArgument | Internal

  /** A gRPC status error: its code and the failure it wraps. */
  datatype Status = Status(code: Code, cause: Error)

  /** A resolver builder: the naming client and the group it was created with. */
  datatype Builder = Builder(client: ClientRef, group: string) {

    /** The scheme is fixed, whatever the client and group. */
    function Scheme(): (s: string)
      ensures s == "nacos"
    {
      SchemeName
    }
  }

  /** Creates a builder; this never fails. */
  function NewBuilder(client: ClientRef, group: string): (r: Result<Builder, Error>)
    ensures r.Success? && r.value.client == client && r.value.group == group
  {
    Success(Builder(client, group))
  }

  /** `s` is `r` with `lead` slashes before it and only slashes after it. */
  ghost predicate PaddedAt(s: string, r: string, lead: nat)
  {
    && lead + |r| <= |s|
    && s[lead..lead + |r|] == r
    && (forall i :: 0 <= i < lead ==> s[i] == '/')
    && (forall i :: lead + |r| <= i < |s| ==> s[i] == '/')
  }

  /** `s` is `r` with some slashes added at either end. */
  ghost predicate SlashPadded(s: string, r: string)
  {
    exists lead: nat :: PaddedAt(s, r, lead)
  }

  /** Neither the first nor the last character is a slash. */
  predicate NoEdgeSlash(r: string)
  {
    r == [] || (r[0] != '/' && r[|r| - 1] != '/')
  }

  /** Removes every leading slash. */
  function TrimLeft(s: string): (r: string)
    ensures |r| <= |s| && r == s[|s| - |r|..]
    ensures forall i :: 0 <= i < |s| - |r| ==> s[i] == '/'
    ensures r == [] || r[0] != '/'
    decreases |s|
  {
    if |s| > 0 && s[0] == '/' then TrimLeft(s[1..]) else s
  }

  /** Removes every trailing slash. */
  function TrimRight(s: string): (r: string)
    ensures |r| <= |s| && r == s[..|r|]
    ensures forall i :: |r| <= i < |s| ==> s[i] == '/'
    ensures r == [] || r[|r| - 1] != '/'
    decreases |s|
  {
    if |s| > 0 && s[|s| - 1] == '/' then TrimRight(s[..|s| - 1]) else s
  }

  /** Trimming the front and then the back strips exactly the leading and trailing slashes. */
  lemma {:induction false} TrimBothPads(s: string)
    ensures PaddedAt(s, TrimRight(TrimLeft(s)), |s| - |TrimLeft(s)|)
  {
    var left := TrimLeft(s);
    var r := TrimRight(left);
    var lead := |s| - |left|;
    assert s[lead..] == left;
    assert s[lead..lead + |r|] == left[..|r|];
    forall i | lead + |r| <= i < |s|
      ensures s[i] == '/'
    {
      assert s[i] == left[i - lead];
    }
  }

  /** Removes every slash at either end of `s`. */
  function Trim(s: string): (r: string)
    ensures NoEdgeSlash(r)
    ensures SlashPadded(s, r)
  {
    TrimBothPads(s);
    TrimRight(TrimLeft(s))
  }

  /**
   * The slash padding of a string is unique: the only string without an edge
   * slash that `s` pads is the trimmed `s`.
   */
  lemma {:induction false} TrimUnique(s: string, r: string)
    requires SlashPadded(s, r) && NoEdgeSlash(r)
    ensures r == Trim(s)
  {
    var t := Trim(s);
    var lead: nat :| PaddedAt(s, r, lead);
    var lead2: nat :| PaddedAt(s, t, lead2);
    assert r != [] ==> s[lead] == r[0] && s[lead + |r| - 1] == r[|r| - 1];
    assert t != [] ==> s[lead2] == t[0] && s[lead2 + |t| - 1] == t[|t| - 1];
    assert r == [] <==> t == [];
    assert r != [] ==> lead == lead2 && |r| == |t|;
  }

  /** Trimming twice is trimming once. */
  lemma {:induction false} TrimIdempotent(s: string)
    ensures Trim(Trim(s)) == Trim(s)
  {
    var t := Trim(s);
    assert PaddedAt(t, t, 0);
    TrimUnique(t, t);
  }

  /**
   * The resolver target: the URL path, or the opaque part when the path is
   * empty, with the slashes at either end removed.
   */
  function TargetOf(target: TargetURL): (r: string)
    ensures NoEdgeSlash(r)
    ensures target.path != "" ==> SlashPadded(target.path, r)
    ensures target.path == "" ==> SlashPadded(target.opaquePart, r)
  {
    var endpoint := if target.path == "" then target.opaquePart else target.path;
    Trim(endpoint)
  }

  /**
   * Builds a resolver for `target`: a manager failure is reported as
   * InvalidArgument and a watch-channel failure as Internal, with no resolver
   * returned; on success the resolver holds the builder's client, the derived
   * target and the channel with the initial batch. `parse` stands for URL
   * parsing and `selectInstances` for the registry's listing call. The
   * builder's group takes no part.
   */
  method Build<M>(b: Builder, target: TargetURL,
                  parse: string -> Result<ParsedTarget, Error>,
                  selectInstances: SelectParams -> Result<seq<Instance<M>>, Error>)
    returns (r: Result<Resolver<M>, Status>)
    ensures b.client == Nil ==> r == Failure(Status(InvalidArgument, ErrInvalidClient))
    ensures b.client != Nil && TargetOf(target) == "" ==>
      r == Failure(Status(InvalidArgument, ErrInvalidTarget))
    ensures b.client != Nil && TargetOf(target) != "" ==>
      match WatchChannelOutcome(TargetOf(target), parse, selectInstances)
      case Failure(e) => r == Failure(Status(Internal, e))
      case Success(ch) =>
        r.Success? && fresh(r.value) &&
        r.value.client == b.client && r.value.target == TargetOf(target) &&
        r.value.wch == ch && r.value.allUps == map[] && r.value.states == []
  {
    var endpoint := TargetOf(target);
    var res := new Resolver<M>(b.client, endpoint);
    var em := NewManager(res.client, res.target);
    if em.Failure? {
      return Failure(Status(InvalidArgument, em.error));
    }
    var wch := em.value.NewWatchChannel(parse, selectInstances);
    if wch.Failure? {
      return Failure(Status(Internal, wch.error));
    }
    res.wch := wch.value;
    r := Success(res);
  }
}
