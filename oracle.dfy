/** The decision-making of `OracleInstancePrep` (utils/oracle.py): choosing between
    first-time setup and the cached `config.json`, defaulting blank display names,
    picking the aarch64 image with the greatest name suffix, and building the fixed launch request.
    The cloud SDK, key generation and the console prompt are outside the model:
    their answers arrive as a `CloudAnswers` value. */
module Oracle {
  import opened Wrappers
  import opened PyStr

  /** Why `OracleInstancePrep()` raises instead of returning an object. */
  datatype SetupError =
    | NameUnset(variable: string)   // os.getenv(...) is None, so `.strip()` raises AttributeError
    | NoAvailabilityDomain          // result[0] on an empty domain list: IndexError
    | SeveralDomains                // result[choice - 1] after `for result in result`: the name
                                    // now holds one domain object, which is not subscriptable
    | NoAarch64Image                // sorted([])[0]: IndexError
    | MalformedConfig               // json.load fails on ./config.json
    | MissingKey(key: string)       // config[key] on a key the file lacks: KeyError

  /** An image as `list_images` reports it. */
  datatype Image = Image(id: string, displayName: string)

  /** What the cloud side of setup answers: the availability domains, the image list,
      the ids of the network resources it creates, and the public half of the freshly
      generated key pair. */
  datatype CloudAnswers = CloudAnswers(
    domains: seq<string>,
    images: seq<Image>,
    vcnId: string,
    subnetId: string,
    gatewayId: string,
    publicKey: string)

  /** `./config.json` as `__init__` finds it. */
  datatype ConfigFile = Absent | Malformed | Parsed(fields: map<string, string>)

  /** The five display names read on the setup path. */
  datatype Names = Names(instance: string, vcn: string, subnet: string, gateway: string, vnic: string)

  /** The nine values the launch depends on, whichever path produced them. */
  datatype Chosen = Chosen(
    vcnId: string,
    subnetId: string,
    gatewayId: string,
    publicKey: string,
    imageId: string,
    avDomain: string,
    compartmentId: string,
    instanceName: string,
    vnicName: string)

  datatype ShapeConfig = ShapeConfig(ocpus: nat, memoryInGbs: nat)

  datatype VnicDetails = VnicDetails(
    subnetId: string,
    assignPublicIp: bool,
    assignPrivateDnsRecord: bool,
    assignIpv6Ip: bool,
    displayName: string)

  /** `oci.core.models.LaunchInstanceDetails`, restricted to the fields the source sets. */
  datatype LaunchInstanceDetails = LaunchInstanceDetails(
    compartmentId: string,
    displayName: string,
    shape: string,
    shapeConfig: ShapeConfig,
    imageId: string,
    subnetId: string,
    metadata: map<string, string>,
    isPvEncryptionInTransitEnabled: bool,
    availabilityDomain: string,
    createVnicDetails: VnicDetails)

  /** The values of a launch request that come from the chosen settings. */
  datatype LaunchTarget = LaunchTarget(
    compartmentId: string,
    displayName: string,
    imageId: string,
    subnetId: string,
    publicKey: string,
    availabilityDomain: string,
    vnicName: string)

  const NameVariables: seq<string> := ["INSTANCE_NAME", "VCN_NAME", "SUBNET_NAME", "GATEWAY_NAME", "VNIC_NAME"]

  /** The keys `__init__` reads from `config.json`, in the order it reads them. */
  const CacheKeys: seq<string> :=
    ["vcn_id", "subnet_id", "gateway_id", "public_key", "image_id", "av_domain", "compartment_id", "name", "vnic_name"]

  const ArmShape: string := "VM.Standard.A1.Flex"
  const SshKeysEntry: string := "ssh_authorized_keys"

  // ---------------------------------------------------------------------------
  // Display-name defaulting

  /** `value if value.strip() else default` */
  function DefaultName(value: string, default: string): (r: string)
    ensures !AllSpace(value) ==> r == value
    ensures AllSpace(value) ==> r == default
    ensures !AllSpace(default) ==> !AllSpace(r)
  {
    StripEmptyIffAllSpace(value);
    if Strip(value) == [] then default else value
  }

  /** `i` is the first position of `keys` whose key `m` lacks. */
  predicate IsFirstMissing(keys: seq<string>, m: map<string, string>, i: int)
  {
    0 <= i < |keys| && keys[i] !in m && forall j | 0 <= j < i :: keys[j] in m
  }

  /** The position at which reading `keys` from `m` one by one first fails. */
  function FirstMissing(keys: seq<string>, m: map<string, string>): (r: Option<nat>)
    ensures r.None? <==> forall k | k in keys :: k in m
    ensures r.Some? ==> IsFirstMissing(keys, m, r.value)
  {
    if keys == [] then None
    else if keys[0] !in m then Some(0)
    else match FirstMissing(keys[1..], m)
      case None => None
      case Some(i) => Some(i + 1)
  }

  /** `name` is what the setting `variable` settles on: its value, or `default` when blank. */
  predicate Settled(env: map<string, string>, variable: string, default: string, name: string)
  {
    variable in env && name == (if AllSpace(env[variable]) then default else env[variable])
  }

  /** The five names are the environment's, each replaced by its default when blank. */
  predicate NamesFrom(env: map<string, string>, n: Names)
  {
    && Settled(env, "INSTANCE_NAME", "ORACLE-VPS", n.instance)
    && Settled(env, "VCN_NAME", "ORACLE-VCN", n.vcn)
    && Settled(env, "SUBNET_NAME", "ORACLE-SUBNET", n.subnet)
    && Settled(env, "GATEWAY_NAME", "ORACLE-GW", n.gateway)
    && Settled(env, "VNIC_NAME", "ORACLE-VPS-VNIC", n.vnic)
  }

  predicate NoneBlank(n: Names)
  {
    !AllSpace(n.instance) && !AllSpace(n.vcn) && !AllSpace(n.subnet) && !AllSpace(n.gateway) && !AllSpace(n.vnic)
  }

  lemma NameVariablesPresent(env: map<string, string>)
    requires forall v | v in NameVariables :: v in env
    ensures "INSTANCE_NAME" in env && "VCN_NAME" in env && "SUBNET_NAME" in env
    ensures "GATEWAY_NAME" in env && "VNIC_NAME" in env
  {
  }

  /** Lines 24-37: the five names, each defaulted when blank; `os.getenv` on an unset
      variable gives `None` and `.strip()` on it raises, so the first unset one is an error. */
  function SetupNames(env: map<string, string>): (r: Result<Names, SetupError>)
    ensures r.Success? <==> forall v | v in NameVariables :: v in env
    ensures r.Failure? ==> exists i :: IsFirstMissing(NameVariables, env, i) && r.error == NameUnset(NameVariables[i])
    ensures r.Success? ==> NamesFrom(env, r.value) && NoneBlank(r.value)
  {
    match FirstMissing(NameVariables, env)
    case Some(i) => Failure(NameUnset(NameVariables[i]))
    case None =>
      NameVariablesPresent(env);
      assert !IsSpace('O');
      assert "ORACLE-VPS"[0] == 'O' && "ORACLE-VCN"[0] == 'O' && "ORACLE-SUBNET"[0] == 'O';
      assert "ORACLE-GW"[0] == 'O' && "ORACLE-VPS-VNIC"[0] == 'O';
      Success(Names(
        DefaultName(env["INSTANCE_NAME"], "ORACLE-VPS"),
        DefaultName(env["VCN_NAME"], "ORACLE-VCN"),
        DefaultName(env["SUBNET_NAME"], "ORACLE-SUBNET"),
        DefaultName(env["GATEWAY_NAME"], "ORACLE-GW"),
        DefaultName(env["VNIC_NAME"], "ORACLE-VPS-VNIC")))
  }

  // ---------------------------------------------------------------------------
  // Availability domain and image selection

  /** `get_av_domain` (lines 173-194). With several domains the loop `for result in result`
      rebinds `result` to the last domain object, so `result[choice - 1]` raises whatever
      the operator answers; only a single domain is ever returned. */
  function AvDomain(domains: seq<string>): (r: Result<string, SetupError>)
    ensures r.Success? <==> |domains| == 1
    ensures r.Success? ==> r.value == domains[0]
    ensures r.Failure? ==> r.error == (if domains == [] then NoAvailabilityDomain else SeveralDomains)
  {
    if |domains| > 1 then Failure(SeveralDomains)
    else if |domains| == 1 then Success(domains[0])
    else Failure(NoAvailabilityDomain)
  }

  predicate IsAarch64(image: Image)
  {
    Contains(image.displayName, "aarch64")
  }

  /** `[image for image in images if "aarch64" in image.display_name]` */
  function Aarch64Images(images: seq<Image>): (r: seq<Image>)
    ensures forall x :: x in r <==> x in images && IsAarch64(x)
  {
    if images == [] then []
    else (if IsAarch64(images[0]) then [images[0]] else []) + Aarch64Images(images[1..])
  }

  /** The sort key `image.display_name.split("-")[-1]`. */
  function Key(image: Image): string
  {
    LastSegment(image.displayName)
  }

  /** Insert `x` ahead of the first element whose key is not greater than its own. */
  function InsertDesc(x: Image, ys: seq<Image>): (r: seq<Image>)
    ensures multiset(r) == multiset(ys) + multiset{x}
  {
    if ys == [] || !Less(Key(x), Key(ys[0])) then [x] + ys
    else
      assert ys == [ys[0]] + ys[1..];
      [ys[0]] + InsertDesc(x, ys[1..])
  }

  /** `sorted(xs, key=Key, reverse=True)`: descending by key, stable among equal keys. */
  function SortDesc(xs: seq<Image>): (r: seq<Image>)
    ensures multiset(r) == multiset(xs)
  {
    if xs == [] then []
    else
      assert xs == [xs[0]] + xs[1..];
      InsertDesc(xs[0], SortDesc(xs[1..]))
  }

  /** No key in `r` is smaller than a key after it. */
  predicate Descending(r: seq<Image>)
  {
    forall i, j | 0 <= i < j < |r| :: LessEq(Key(r[j]), Key(r[i]))
  }

  lemma {:induction false} InsertDescKeepsOrder(x: Image, ys: seq<Image>)
    requires Descending(ys)
    ensures Descending(InsertDesc(x, ys))
  {
    if ys == [] || !Less(Key(x), Key(ys[0])) {
      var r := [x] + ys;
      forall i, j | 0 <= i < j < |r| ensures LessEq(Key(r[j]), Key(r[i])) {
        if i == 0 {
          LessTrichotomy(Key(x), Key(ys[0]));
          if j > 1 && Key(ys[j - 1]) != Key(ys[0]) {
            if Key(ys[0]) != Key(x) {
              LessTransitive(Key(ys[j - 1]), Key(ys[0]), Key(x));
            }
          }
        }
      }
    } else {
      InsertDescKeepsOrder(x, ys[1..]);
      var r := InsertDesc(x, ys);
      var t := InsertDesc(x, ys[1..]);
      assert r == [ys[0]] + t;
      forall j | 1 <= j < |r| ensures LessEq(Key(r[j]), Key(r[0])) {
        assert r[j] in multiset(t);
        assert r[j] in multiset(ys[1..]) + multiset{x};
        if r[j] == x {
        } else {
          assert r[j] in ys[1..];
          var k :| 0 <= k < |ys[1..]| && ys[1..][k] == r[j];
          assert ys[k + 1] == r[j];
        }
      }
    }
  }

  lemma {:induction false} SortDescIsDescending(xs: seq<Image>)
    ensures Descending(SortDesc(xs))
  {
    if xs != [] {
      SortDescIsDescending(xs[1..]);
      InsertDescKeepsOrder(xs[0], SortDesc(xs[1..]));
    }
  }

  /** Position `k` of `images` holds an aarch64 image whose key no aarch64 image exceeds,
      and every aarch64 image before it has a strictly smaller key. Keys compare as
      strings, so a name ending in `-2` outranks one ending in `-12`. */
  predicate IsGreatestAarch64(images: seq<Image>, k: int)
  {
    && 0 <= k < |images| && IsAarch64(images[k])
    && (forall j | 0 <= j < |images| && IsAarch64(images[j]) :: LessEq(Key(images[j]), Key(images[k])))
    && (forall j | 0 <= j < k && IsAarch64(images[j]) :: Less(Key(images[j]), Key(images[k])))
  }

  /** Reference definition: one pass over `images` for the first aarch64 image with the
      greatest key, without filtering or sorting. */
  function GreatestAarch64(images: seq<Image>): (k: Option<nat>)
    ensures k.Some? ==> k.value < |images|
  {
    if images == [] then None
    else
      var k := GreatestAarch64(images[1..]);
      if !IsAarch64(images[0]) then (if k.Some? then Some(k.value + 1) else None)
      else if k.Some? && Less(Key(images[0]), Key(images[k.value + 1])) then Some(k.value + 1)
      else Some(0)
  }

  lemma {:induction false} GreatestAarch64IsGreatest(images: seq<Image>)
    ensures GreatestAarch64(images).None? <==> forall x | x in images :: !IsAarch64(x)
    ensures GreatestAarch64(images).Some? ==> IsGreatestAarch64(images, GreatestAarch64(images).value)
  {
    if images != [] {
      var rest := images[1..];
      GreatestAarch64IsGreatest(rest);
      assert images == [images[0]] + rest;
      assert forall j | 1 <= j < |images| :: images[j] == rest[j - 1];
      var k := GreatestAarch64(rest);
      if IsAarch64(images[0]) && !(k.Some? && Less(Key(images[0]), Key(images[k.value + 1]))) {
        if k.Some? {
          var top := Key(images[k.value + 1]);
          LessTrichotomy(Key(images[0]), top);
          forall j | 1 <= j < |images| && IsAarch64(images[j]) ensures LessEq(Key(images[j]), Key(images[0])) {
            if Key(images[j]) != top && top != Key(images[0]) {
              LessTransitive(Key(images[j]), top, Key(images[0]));
            }
          }
        } else {
          forall j | 1 <= j < |images| ensures !IsAarch64(images[j]) {
            assert images[j] in rest;
          }
        }
      }
    }
  }

  /** The head of the stable descending sort of the aarch64 images is the image the
      reference pass finds. */
  lemma {:induction false} SortHeadIsGreatest(images: seq<Image>)
    requires Aarch64Images(images) != []
    ensures GreatestAarch64(images).Some?
    ensures SortDesc(Aarch64Images(images)) != []
    ensures SortDesc(Aarch64Images(images))[0] == images[GreatestAarch64(images).value]
  {
    var rest := images[1..];
    var c := Aarch64Images(images);
    var c' := Aarch64Images(rest);
    if !IsAarch64(images[0]) {
      assert c == c';
      SortHeadIsGreatest(rest);
    } else {
      assert c == [images[0]] + c';
      assert c[1..] == c';
      assert SortDesc(c) == InsertDesc(images[0], SortDesc(c'));
      if c' == [] {
        GreatestAarch64IsGreatest(rest);
      } else {
        SortHeadIsGreatest(rest);
      }
    }
  }

  /** `id` is the id of the first aarch64 image of `images` with the greatest key. */
  ghost predicate IsGreatestKeyId(images: seq<Image>, id: string)
  {
    exists k :: IsGreatestAarch64(images, k) && id == images[k].id
  }

  /** Lines 201-206: the id of the first aarch64 image with the greatest key, an IndexError
      when there is none. */
  function GetImage(images: seq<Image>): (r: Result<string, SetupError>)
    ensures r.Failure? <==> forall x | x in images :: !IsAarch64(x)
    ensures r.Failure? ==> r.error == NoAarch64Image
    ensures r.Success? ==> IsGreatestKeyId(images, r.value)
  {
    var candidates := Aarch64Images(images);
    if candidates == [] then
      assert SortDesc(candidates) == [];
      Failure(NoAarch64Image)
    else
      assert candidates[0] in candidates;
      SortHeadIsGreatest(images);
      GreatestAarch64IsGreatest(images);
      Success(SortDesc(candidates)[0].id)
  }

  // ---------------------------------------------------------------------------
  // Cache load and the choice of path

  /** Each of the nine values of `c` is the entry of `m` under its key. */
  predicate FromCache(m: map<string, string>, c: Chosen)
  {
    && "vcn_id" in m && c.vcnId == m["vcn_id"]
    && "subnet_id" in m && c.subnetId == m["subnet_id"]
    && "gateway_id" in m && c.gatewayId == m["gateway_id"]
    && "public_key" in m && c.publicKey == m["public_key"]
    && "image_id" in m && c.imageId == m["image_id"]
    && "av_domain" in m && c.avDomain == m["av_domain"]
    && "compartment_id" in m && c.compartmentId == m["compartment_id"]
    && "name" in m && c.instanceName == m["name"]
    && "vnic_name" in m && c.vnicName == m["vnic_name"]
  }

  lemma CacheKeysPresent(m: map<string, string>)
    requires forall k | k in CacheKeys :: k in m
    ensures "vcn_id" in m && "subnet_id" in m && "gateway_id" in m && "public_key" in m && "image_id" in m
    ensures "av_domain" in m && "compartment_id" in m && "name" in m && "vnic_name" in m
  {
  }

  /** Lines 62-72: the nine values read from a parsed `config.json`, a KeyError at the
      first key it lacks. */
  function LoadCached(m: map<string, string>): (r: Result<Chosen, SetupError>)
    ensures r.Success? <==> forall k | k in CacheKeys :: k in m
    ensures r.Failure? ==> exists i :: IsFirstMissing(CacheKeys, m, i) && r.error == MissingKey(CacheKeys[i])
    ensures r.Success? ==> FromCache(m, r.value)
  {
    match FirstMissing(CacheKeys, m)
    case Some(i) => Failure(MissingKey(CacheKeys[i]))
    case None =>
      CacheKeysPresent(m);
      Success(Chosen(m["vcn_id"], m["subnet_id"], m["gateway_id"], m["public_key"], m["image_id"],
                     m["av_domain"], m["compartment_id"], m["name"], m["vnic_name"]))
  }

  /** The values `__init__` (lines 23-72) settles on, or the exception it raises. */
  function Resolve(tenancy: string, env: map<string, string>, file: ConfigFile, cloud: CloudAnswers): Result<Chosen, SetupError>
  {
    match file
    case Absent =>
      (match SetupNames(env)
       case Failure(e) => Failure(e)
       case Success(names) =>
         match AvDomain(cloud.domains)
         case Failure(e) => Failure(e)
         case Success(av) =>
           match GetImage(cloud.images)
           case Failure(e) => Failure(e)
           case Success(image) =>
             Success(Chosen(cloud.vcnId, cloud.subnetId, cloud.gatewayId, cloud.publicKey, image, av,
                            tenancy, names.instance, names.vnic)))
    case Malformed => Failure(MalformedConfig)
    case Parsed(m) => LoadCached(m)
  }

  /** With `config.json` present nothing of the environment or the cloud is consulted:
      two runs over the same file settle on the same values. */
  lemma CacheSkipsSetup(t1: string, t2: string, e1: map<string, string>, e2: map<string, string>,
                        file: ConfigFile, c1: CloudAnswers, c2: CloudAnswers)
    requires !file.Absent?
    ensures Resolve(t1, e1, file, c1) == Resolve(t2, e2, file, c2)
    ensures file.Parsed? ==> Resolve(t1, e1, file, c1) == LoadCached(file.fields)
  {
  }

  /** Without `config.json` the network ids and key come from setup, the compartment
      is the tenancy, the names from the environment, the image from `get_image`. */
  lemma SetupWhenAbsent(tenancy: string, env: map<string, string>, cloud: CloudAnswers)
    ensures var r := Resolve(tenancy, env, Absent, cloud);
      && (r.Success? <==> SetupNames(env).Success? && |cloud.domains| == 1 && GetImage(cloud.images).Success?)
      && (r.Success? ==>
            && r.value.vcnId == cloud.vcnId && r.value.subnetId == cloud.subnetId
            && r.value.gatewayId == cloud.gatewayId && r.value.publicKey == cloud.publicKey
            && r.value.compartmentId == tenancy && r.value.avDomain == cloud.domains[0]
            && r.value.imageId == GetImage(cloud.images).value
            && r.value.instanceName == SetupNames(env).value.instance
            && r.value.vnicName == SetupNames(env).value.vnic)
  {
  }

  // ---------------------------------------------------------------------------
  // The launch request

  /** The fixed part of every request: the ARM flex shape at 4 OCPUs / 24 GB, in-transit
      encryption, one public IPv4 with a private DNS record, no IPv6, the VNIC on the
      instance's own subnet and the key as the only metadata entry. */
  predicate ArmFlexRequest(d: LaunchInstanceDetails)
  {
    && d.shape == ArmShape
    && d.shapeConfig == ShapeConfig(4, 24)
    && d.isPvEncryptionInTransitEnabled
    && d.createVnicDetails.assignPublicIp
    && d.createVnicDetails.assignPrivateDnsRecord
    && !d.createVnicDetails.assignIpv6Ip
    && d.createVnicDetails.subnetId == d.subnetId
    && d.metadata.Keys == {SshKeysEntry}
  }

  /** What a request says about the chosen settings. */
  function TargetOf(d: LaunchInstanceDetails): LaunchTarget
    requires SshKeysEntry in d.metadata
  {
    LaunchTarget(d.compartmentId, d.displayName, d.imageId, d.subnetId, d.metadata[SshKeysEntry],
                 d.availabilityDomain, d.createVnicDetails.displayName)
  }

  /** The settings a request is built from. */
  function Target(c: Chosen): LaunchTarget
  {
    LaunchTarget(c.compartmentId, c.instanceName, c.imageId, c.subnetId, c.publicKey, c.avDomain, c.vnicName)
  }

  /** Lines 78-100 */
  function LaunchDetails(c: Chosen): (d: LaunchInstanceDetails)
    ensures ArmFlexRequest(d)
    ensures TargetOf(d) == Target(c)
  {
    LaunchInstanceDetails(
      compartmentId := c.compartmentId,
      displayName := c.instanceName,
      shape := ArmShape,
      shapeConfig := ShapeConfig(4, 24),
      imageId := c.imageId,
      subnetId := c.subnetId,
      metadata := map[SshKeysEntry := c.publicKey],
      isPvEncryptionInTransitEnabled := true,
      availabilityDomain := c.avDomain,
      createVnicDetails := VnicDetails(c.subnetId, true, true, false, c.vnicName))
  }

  /** Two settings give the same request exactly when they agree on the launch values:
      the VCN and gateway ids do not reach the request. */
  lemma LaunchDetailsDeterminedByTarget(c1: Chosen, c2: Chosen)
    ensures LaunchDetails(c1) == LaunchDetails(c2) <==> Target(c1) == Target(c2)
  {
    if LaunchDetails(c1) == LaunchDetails(c2) {
      assert TargetOf(LaunchDetails(c1)) == TargetOf(LaunchDetails(c2));
    }
  }

  // ---------------------------------------------------------------------------
  // The object

  class OracleInstancePrep {
    /** `oracle_config["tenancy"]`; the other credentials only reach the SDK. */
    const tenancy: string

    var instanceName: string
    var vcnName: string
    var subnetName: string
    var gatewayName: string
    var vnicName: string

    var compartmentId: string
    var avDomain: string
    var imageId: string
    var vcnId: string
    var subnetId: string
    var gatewayId: string
    var publicKey: string

    var instanceDetails: LaunchInstanceDetails

    /** The nine launch values held by the object. */
    function Values(): Chosen
      reads this
    {
      Chosen(vcnId, subnetId, gatewayId, publicKey, imageId, avDomain, compartmentId, instanceName, vnicName)
    }

    /** Lines 14-21: the credentials and the compute client. */
    constructor (tenancy: string)
      ensures this.tenancy == tenancy
    {
      this.tenancy := tenancy;
    }

    /** Lines 23-100: set up or recover the launch values, then build the request.
        `err` is the exception `__init__` would raise. */
    method Prepare(env: map<string, string>, file: ConfigFile, cloud: CloudAnswers) returns (err: Option<SetupError>)
      modifies this`vcnId, this`subnetId, this`gatewayId, this`publicKey, this`imageId, this`avDomain
      modifies this`compartmentId, this`instanceName, this`vnicName, this`instanceDetails
      modifies this`vcnName, this`subnetName, this`gatewayName
      ensures var want := Resolve(tenancy, env, file, cloud);
        && (err.None? <==> want.Success?)
        && (want.Failure? ==> err == Some(want.error))
        && (want.Success? ==> Values() == want.value && instanceDetails == LaunchDetails(want.value))
      ensures file.Absent? && err.None? ==>
        NamesFrom(env, Names(instanceName, vcnName, subnetName, gatewayName, vnicName))
      ensures !file.Absent? ==>
        vcnName == old(vcnName) && subnetName == old(subnetName) && gatewayName == old(gatewayName)
    {
      var chosen := Settle(env, file, cloud);
      if chosen.Failure? {
        return Some(chosen.error);
      }
      Store(chosen.value);
      err := None;
    }

    /** Lines 60-100: keep the settled values and the request built from them. */
    method Store(c: Chosen)
      modifies this`vcnId, this`subnetId, this`gatewayId, this`publicKey, this`imageId, this`avDomain
      modifies this`compartmentId, this`instanceName, this`vnicName, this`instanceDetails
      ensures vcnId == c.vcnId && subnetId == c.subnetId && gatewayId == c.gatewayId && publicKey == c.publicKey
      ensures imageId == c.imageId && avDomain == c.avDomain && compartmentId == c.compartmentId
      ensures instanceName == c.instanceName && vnicName == c.vnicName
      ensures instanceDetails == LaunchDetails(c)
    {
      instanceDetails := LaunchDetails(c);
      vcnId, subnetId, gatewayId, publicKey, imageId := c.vcnId, c.subnetId, c.gatewayId, c.publicKey, c.imageId;
      avDomain, compartmentId, instanceName, vnicName := c.avDomain, c.compartmentId, c.instanceName, c.vnicName;
    }

    /** Lines 23 and 58-72: run the setup when `config.json` is absent, else read it. */
    method Settle(env: map<string, string>, file: ConfigFile, cloud: CloudAnswers) returns (chosen: Result<Chosen, SetupError>)
      modifies this`instanceName, this`vcnName, this`subnetName, this`gatewayName, this`vnicName
      ensures chosen == Resolve(tenancy, env, file, cloud)
      ensures !file.Absent? ==>
        vcnName == old(vcnName) && subnetName == old(subnetName) && gatewayName == old(gatewayName)
      ensures file.Absent? && chosen.Success? ==>
        && NamesFrom(env, Names(instanceName, vcnName, subnetName, gatewayName, vnicName))
        && chosen.value.instanceName == instanceName && chosen.value.vnicName == vnicName
    {
      if file.Absent? {
        chosen := SetUp(env, cloud);
      } else if file.Malformed? {
        chosen := Failure(MalformedConfig);
      } else {
        chosen := LoadCached(file.fields);
      }
    }

    /** Lines 24-55: the setup path, up to the values it would write to `config.json`. */
    method SetUp(env: map<string, string>, cloud: CloudAnswers) returns (r: Result<Chosen, SetupError>)
      modifies this`instanceName, this`vcnName, this`subnetName, this`gatewayName, this`vnicName
      ensures r == Resolve(tenancy, env, Absent, cloud)
      ensures r.Success? ==>
        && NamesFrom(env, Names(instanceName, vcnName, subnetName, gatewayName, vnicName))
        && r.value.instanceName == instanceName && r.value.vnicName == vnicName
    {
      var names := SetupNames(env);
      if names.Failure? {
        return Failure(names.error);
      }
      instanceName, vcnName, subnetName, gatewayName, vnicName :=
        names.value.instance, names.value.vcn, names.value.subnet, names.value.gateway, names.value.vnic;
      assert Names(instanceName, vcnName, subnetName, gatewayName, vnicName) == names.value;
      var av := AvDomain(cloud.domains);
      if av.Failure? {
        return Failure(av.error);
      }
      var image := GetImage(cloud.images);
      if image.Failure? {
        return Failure(image.error);
      }
      r := Success(Chosen(cloud.vcnId, cloud.subnetId, cloud.gatewayId, cloud.publicKey, image.value, av.value,
                          tenancy, instanceName, vnicName));
    }
  }
}
