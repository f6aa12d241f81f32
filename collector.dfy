/**
 * The service registry (RpcServiceCollector). A service interface is described by a `ClassDecl`
 * value (what reflection would report: interface or not, its @RpcIdentifier, its declared methods
 * with their identifiers and signatures). Registration validates the interface and, only when
 * every check passes, records it in three lookup structures that the class keeps consistent.
 */
module Collector {
  import opened Basics

  /** A Java type as the registry classifies it: a protobuf message class or anything else. */
  datatype JavaType = MessageClass(name: string) | OtherClass(name: string)

  /** A declared method: its name, its @RpcIdentifier value if annotated, and its signature. */
  datatype MethodDecl = MethodDecl(name: string, identifier: Option<int32>, returnType: JavaType, parameterTypes: seq<JavaType>)

  /** A class handed to the registry; `isOob` marks an interface registered for OOB pushes. */
  datatype ClassDecl = ClassDecl(name: string, isInterface: bool, identifier: Option<int32>, declaredMethods: seq<MethodDecl>, isOob: bool)

  /** The two implementation constructors the server accepts. */
  datatype ConstructorKind = Parameterized | Default

  /** A declared constructor of an implementation class. */
  datatype ConstructorDecl = ConstructorDecl(kind: ConstructorKind, isPublic: bool)

  /** A service implementation class and its declared constructors. */
  datatype ImplClassDecl = ImplClassDecl(name: string, constructors: seq<ConstructorDecl>)

  datatype RpcMethodInfo = RpcMethodInfo(rpcMethod: MethodDecl, methodIdentifier: int32, requestMessageType: string, responseMessageType: string)

  datatype RpcServiceInfo = RpcServiceInfo(
    service: ClassDecl,
    serviceIdentifier: int32,
    methodMap: map<MethodDecl, RpcMethodInfo>,
    methodIdentifierMap: map<int32, RpcMethodInfo>,
    implClass: Option<ImplClassDecl>,
    implClassConstructor: Option<ConstructorKind>)
  {
    function IsOob(): bool {
      service.isOob
    }
  }

  datatype RegistrationError =
    | IllegalArgument(message: string)
    | MissingRpcIdentifier(message: string)
    | DuplicateRpcServiceIdentifier(message: string)
    | DuplicateRpcMethodIdentifier(message: string)
    | IllegalMethodSignature(message: string)
    | ServiceConstructorNotFound(message: string)

  /** What a method must satisfy: annotated, returns a message, takes exactly one message. */
  predicate MethodWellFormed(m: MethodDecl) {
    && m.identifier.Some?
    && m.returnType.MessageClass?
    && |m.parameterTypes| == 1
    && m.parameterTypes[0].MessageClass?
  }

  /** The entry recorded for a well-formed method (RpcServiceCollector.java:149-177). */
  function MethodInfoOf(m: MethodDecl): RpcMethodInfo
    requires MethodWellFormed(m)
  {
    RpcMethodInfo(m, m.identifier.value, m.parameterTypes[0].name, m.returnType.name)
  }

  predicate DistinctIdentifiers(ms: seq<MethodDecl>) {
    forall i, j | 0 <= i < j < |ms| :: ms[i].identifier != ms[j].identifier
  }

  /** The per-method checks of `parseServiceClass`, in order, from method i on. */
  function ParseMethods(cls: ClassDecl, i: nat, seen: set<int32>,
                        methodMap: map<MethodDecl, RpcMethodInfo>, idMap: map<int32, RpcMethodInfo>)
    : (r: Result<(map<MethodDecl, RpcMethodInfo>, map<int32, RpcMethodInfo>), RegistrationError>)
    requires i <= |cls.declaredMethods|
    ensures r.Failure? ==> r.error.MissingRpcIdentifier? || r.error.DuplicateRpcMethodIdentifier? || r.error.IllegalMethodSignature?
    ensures r.Success? ==> methodMap.Keys <= r.value.0.Keys && idMap.Keys <= r.value.1.Keys
    decreases |cls.declaredMethods| - i
  {
    if i == |cls.declaredMethods| then Success((methodMap, idMap))
    else
      var m := cls.declaredMethods[i];
      var where := "Class<" + cls.name + ">." + m.name;
      if m.identifier.None? then
        Failure(MissingRpcIdentifier(where + " does not contain @RpcIdentifier annotation."))
      else if m.identifier.value in seen then
        Failure(DuplicateRpcMethodIdentifier(where + " contains duplicate @RpcIdentifier value."))
      else if !m.returnType.MessageClass? then
        Failure(IllegalMethodSignature(where + " does not return a protobuf message."))
      else if |m.parameterTypes| != 1 || !m.parameterTypes[0].MessageClass? then
        Failure(IllegalMethodSignature(where + " does not accept a protobuf message as parameter."))
      else
        var info := MethodInfoOf(m);
        ParseMethods(cls, i + 1, seen + {m.identifier.value},
                     methodMap[m := info], idMap[m.identifier.value := info])
  }

  /**
   * `parseServiceClass` against the identifiers already registered (the keys of the id-to-class
   * map), which also names the class that holds a duplicate identifier.
   */
  function ParseServiceClassSpec(cls: ClassDecl, registered: map<int32, ClassDecl>): (r: Result<RpcServiceInfo, RegistrationError>)
    ensures r.Success? ==>
      && cls.isInterface && cls.identifier == Some(r.value.serviceIdentifier) && r.value.serviceIdentifier !in registered
      && r.value.service == cls && r.value.implClass.None? && r.value.implClassConstructor.None?
  {
    if !cls.isInterface then
      Failure(IllegalArgument("Class<" + cls.name + "> is not an interface."))
    else if cls.identifier.None? then
      Failure(MissingRpcIdentifier("Class<" + cls.name + "> does not contain @RpcIdentifier annotation."))
    else if cls.identifier.value in registered then
      Failure(DuplicateRpcServiceIdentifier("Class<" + cls.name + "> contains duplicate @RpcIdentifier value. Duplicate class: "
                                            + registered[cls.identifier.value].name))
    else
      match ParseMethods(cls, 0, {}, map[], map[])
      case Failure(e) => Failure(e)
      case Success((methodMap, idMap)) =>
        Success(RpcServiceInfo(cls, cls.identifier.value, methodMap, idMap, None, None))
  }

  /** All methods pass the checks and no two share an identifier. */
  predicate ValidServiceMethods(ms: seq<MethodDecl>) {
    (forall k | 0 <= k < |ms| :: MethodWellFormed(ms[k])) && DistinctIdentifiers(ms)
  }

  /**
   * The method maps of an entry describe exactly the declared methods: one entry per method in
   * each map, keyed by the method and by its identifier.
   */
  predicate WellFormedInfo(info: RpcServiceInfo) {
    && ValidServiceMethods(info.service.declaredMethods)
    && MapsOnlyMethods(info.service.declaredMethods, info.methodMap, info.methodIdentifierMap)
    && MapsRecordMethods(info.service.declaredMethods, info.methodMap, info.methodIdentifierMap)
    && |info.methodMap| == |info.service.declaredMethods|
    && |info.methodIdentifierMap| == |info.service.declaredMethods|
  }

  /** The maps hold nothing but declared methods, each identifier keying an entry with that identifier. */
  predicate MapsOnlyMethods(ms: seq<MethodDecl>, methodMap: map<MethodDecl, RpcMethodInfo>, idMap: map<int32, RpcMethodInfo>) {
    && (forall m | m in methodMap :: m in ms)
    && (forall id | id in idMap :: idMap[id].rpcMethod in ms && idMap[id].methodIdentifier == id)
  }

  /** Each well-formed method is recorded under itself and under its identifier. */
  predicate MapsRecordMethods(ms: seq<MethodDecl>, methodMap: map<MethodDecl, RpcMethodInfo>, idMap: map<int32, RpcMethodInfo>) {
    forall k | 0 <= k < |ms| && MethodWellFormed(ms[k]) ::
      && ms[k] in methodMap && methodMap[ms[k]] == MethodInfoOf(ms[k])
      && ms[k].identifier.value in idMap && idMap[ms[k].identifier.value] == MethodInfoOf(ms[k])
  }

  predicate SuffixValid(ms: seq<MethodDecl>, i: nat, seen: set<int32>) {
    && (forall k | i <= k < |ms| :: MethodWellFormed(ms[k]) && ms[k].identifier.value !in seen)
    && (forall j, k | i <= j < k < |ms| :: ms[j].identifier != ms[k].identifier)
  }

  /** Validity from method i on is validity of method i followed by validity from i + 1 on. */
  lemma SuffixValidStep(ms: seq<MethodDecl>, i: nat, seen: set<int32>)
    requires i < |ms| && MethodWellFormed(ms[i])
    ensures SuffixValid(ms, i, seen) <==>
              ms[i].identifier.value !in seen && SuffixValid(ms, i + 1, seen + {ms[i].identifier.value})
  {
    var seen' := seen + {ms[i].identifier.value};
    if ms[i].identifier.value !in seen && SuffixValid(ms, i + 1, seen') {
      forall j, k | i <= j < k < |ms| ensures ms[j].identifier != ms[k].identifier {
        if j == i {
          assert ms[k].identifier.value !in seen';
        }
      }
    }
    if SuffixValid(ms, i, seen) {
      forall k | i + 1 <= k < |ms| ensures ms[k].identifier.value !in seen' {
        assert ms[i].identifier != ms[k].identifier;
      }
    }
  }

  /**
   * The loop from method i on succeeds exactly when every remaining method is well formed, with an
   * identifier not seen before and not repeated.
   */
  lemma {:induction false} ParseMethodsSucceeds(cls: ClassDecl, i: nat, seen: set<int32>,
                                                methodMap: map<MethodDecl, RpcMethodInfo>, idMap: map<int32, RpcMethodInfo>)
    requires i <= |cls.declaredMethods|
    ensures ParseMethods(cls, i, seen, methodMap, idMap).Success? <==> SuffixValid(cls.declaredMethods, i, seen)
    decreases |cls.declaredMethods| - i
  {
    var ms := cls.declaredMethods;
    if i < |ms| {
      var m := ms[i];
      if !MethodWellFormed(m) || m.identifier.value in seen {
        assert !SuffixValid(ms, i, seen);
      } else {
        var info := MethodInfoOf(m);
        ParseMethodsSucceeds(cls, i + 1, seen + {m.identifier.value}, methodMap[m := info], idMap[m.identifier.value := info]);
        SuffixValidStep(ms, i, seen);
      }
    }
  }

  /** The loop records nothing but declared methods. */
  lemma {:induction false} ParseMethodsOnly(cls: ClassDecl, i: nat, seen: set<int32>,
                                            methodMap: map<MethodDecl, RpcMethodInfo>, idMap: map<int32, RpcMethodInfo>)
    requires i <= |cls.declaredMethods|
    requires SuffixValid(cls.declaredMethods, i, seen)
    requires MapsOnlyMethods(cls.declaredMethods, methodMap, idMap)
    ensures ParseMethods(cls, i, seen, methodMap, idMap).Success?
    ensures var r := ParseMethods(cls, i, seen, methodMap, idMap).value;
      MapsOnlyMethods(cls.declaredMethods, r.0, r.1)
    decreases |cls.declaredMethods| - i
  {
    var ms := cls.declaredMethods;
    if i < |ms| {
      var m := ms[i];
      var id := m.identifier.value;
      var info := MethodInfoOf(m);
      SuffixValidStep(ms, i, seen);
      ParseMethodsOnly(cls, i + 1, seen + {id}, methodMap[m := info], idMap[id := info]);
    }
  }

  /**
   * On success each map grows by one entry per remaining method: an identifier is never one seen
   * before, and neither is a method, since every method already recorded has a seen identifier.
   */
  lemma {:induction false} ParseMethodsSizes(cls: ClassDecl, i: nat, seen: set<int32>,
                                             methodMap: map<MethodDecl, RpcMethodInfo>, idMap: map<int32, RpcMethodInfo>)
    requires i <= |cls.declaredMethods|
    requires seen == idMap.Keys
    requires forall m | m in methodMap :: m.identifier.Some? && m.identifier.value in seen
    requires SuffixValid(cls.declaredMethods, i, seen)
    ensures ParseMethods(cls, i, seen, methodMap, idMap).Success?
    ensures var r := ParseMethods(cls, i, seen, methodMap, idMap).value;
      && |r.0| == |methodMap| + (|cls.declaredMethods| - i)
      && |r.1| == |idMap| + (|cls.declaredMethods| - i)
    decreases |cls.declaredMethods| - i
  {
    var ms := cls.declaredMethods;
    if i < |ms| {
      var m := ms[i];
      var id := m.identifier.value;
      var info := MethodInfoOf(m);
      assert m !in methodMap;
      SuffixValidStep(ms, i, seen);
      ParseMethodsSizes(cls, i + 1, seen + {id}, methodMap[m := info], idMap[id := info]);
    }
  }

  /** On success every remaining method is recorded, under itself and under its identifier. */
  lemma {:induction false} ParseMethodsValues(cls: ClassDecl, i: nat, seen: set<int32>,
                                              methodMap: map<MethodDecl, RpcMethodInfo>, idMap: map<int32, RpcMethodInfo>)
    requires i <= |cls.declaredMethods|
    requires seen == idMap.Keys
    requires forall m | m in methodMap :: m.identifier.Some? && m.identifier.value in seen
    requires SuffixValid(cls.declaredMethods, i, seen)
    ensures ParseMethods(cls, i, seen, methodMap, idMap).Success?
    ensures var r := ParseMethods(cls, i, seen, methodMap, idMap).value;
      forall k | i <= k < |cls.declaredMethods| ::
        && cls.declaredMethods[k] in r.0 && r.0[cls.declaredMethods[k]] == MethodInfoOf(cls.declaredMethods[k])
        && cls.declaredMethods[k].identifier.value in r.1
        && r.1[cls.declaredMethods[k].identifier.value] == MethodInfoOf(cls.declaredMethods[k])
    decreases |cls.declaredMethods| - i
  {
    var ms := cls.declaredMethods;
    if i < |ms| {
      var m := ms[i];
      var id := m.identifier.value;
      var info := MethodInfoOf(m);
      var methodMap', idMap' := methodMap[m := info], idMap[id := info];
      SuffixValidStep(ms, i, seen);
      ParseMethodsValues(cls, i + 1, seen + {id}, methodMap', idMap');
      ParseMethodsKeeps(cls, i + 1, seen + {id}, methodMap', idMap');
    }
  }
  /** The loop never changes an entry once it is in the maps. */
  lemma {:induction false} ParseMethodsKeeps(cls: ClassDecl, i: nat, seen: set<int32>,
                                             methodMap: map<MethodDecl, RpcMethodInfo>, idMap: map<int32, RpcMethodInfo>)
    requires i <= |cls.declaredMethods|
    requires seen == idMap.Keys
    requires forall m | m in methodMap :: m.identifier.Some? && m.identifier.value in seen
    requires SuffixValid(cls.declaredMethods, i, seen)
    ensures ParseMethods(cls, i, seen, methodMap, idMap).Success?
    ensures var r := ParseMethods(cls, i, seen, methodMap, idMap).value;
      (forall m | m in methodMap :: m in r.0 && r.0[m] == methodMap[m])
      && (forall id | id in idMap :: id in r.1 && r.1[id] == idMap[id])
    decreases |cls.declaredMethods| - i
  {
    var ms := cls.declaredMethods;
    if i < |ms| {
      var m := ms[i];
      var id := m.identifier.value;
      var info := MethodInfoOf(m);
      SuffixValidStep(ms, i, seen);
      ParseMethodsKeeps(cls, i + 1, seen + {id}, methodMap[m := info], idMap[id := info]);
    }
  }

  /** The maps the loop builds over a class with valid methods describe those methods. */
  lemma ParsedMethodsWellFormed(cls: ClassDecl)
    requires ValidServiceMethods(cls.declaredMethods)
    ensures ParseMethods(cls, 0, {}, map[], map[]).Success?
    ensures MapsOnlyMethods(cls.declaredMethods, ParseMethods(cls, 0, {}, map[], map[]).value.0, ParseMethods(cls, 0, {}, map[], map[]).value.1)
    ensures MapsRecordMethods(cls.declaredMethods, ParseMethods(cls, 0, {}, map[], map[]).value.0, ParseMethods(cls, 0, {}, map[], map[]).value.1)
    ensures |ParseMethods(cls, 0, {}, map[], map[]).value.0| == |cls.declaredMethods|
    ensures |ParseMethods(cls, 0, {}, map[], map[]).value.1| == |cls.declaredMethods|
  {
    assert SuffixValid(cls.declaredMethods, 0, {});
    ParseMethodsOnly(cls, 0, {}, map[], map[]);
    ParseMethodsSizes(cls, 0, {}, map[], map[]);
    ParseMethodsValues(cls, 0, {}, map[], map[]);
  }

  /**
   * Registration validation: `parseServiceClass` succeeds exactly when the class is an interface
   * with an identifier not yet registered and all its methods pass the checks with distinct
   * identifiers.
   */
  lemma ParseServiceClassSucceeds(cls: ClassDecl, registered: map<int32, ClassDecl>)
    ensures ParseServiceClassSpec(cls, registered).Success? <==>
            cls.isInterface && cls.identifier.Some? && cls.identifier.value !in registered
            && ValidServiceMethods(cls.declaredMethods)
  {
    ParseMethodsSucceeds(cls, 0, {}, map[], map[]);
    assert SuffixValid(cls.declaredMethods, 0, {}) <==> ValidServiceMethods(cls.declaredMethods);
  }

  /**
   * The entry a successful `parseServiceClass` builds: the class under its own identifier, no
   * implementation yet, and method maps that describe every declared method once.
   */
  lemma ParseServiceClassEntry(cls: ClassDecl, registered: map<int32, ClassDecl>)
    requires ParseServiceClassSpec(cls, registered).Success?
    ensures var info := ParseServiceClassSpec(cls, registered).value;
      && info.service == cls && cls.identifier.Some? && info.serviceIdentifier == cls.identifier.value
      && info.implClass.None? && info.implClassConstructor.None?
      && EntryBuilt(info) && WellFormedInfo(info)
  {
    ParseServiceClassSucceeds(cls, registered);
    ParsedMethodsWellFormed(cls);
  }

  /**
   * The registry's three structures agree: the id set is the key set of the id-to-class map; each
   * id maps to a registered class whose entry carries that id; each entry belongs to its own class;
   * and each entry describes that class's methods.
   */
  ghost predicate Consistent(ids: set<int32>, classMap: map<int32, ClassDecl>, infoMap: map<ClassDecl, RpcServiceInfo>) {
    IndexConsistent(ids, classMap, infoMap) && EntriesWellFormed(infoMap)
  }

  ghost predicate IndexConsistent(ids: set<int32>, classMap: map<int32, ClassDecl>, infoMap: map<ClassDecl, RpcServiceInfo>) {
    && ids == classMap.Keys
    && (forall id | id in classMap :: classMap[id] in infoMap && infoMap[classMap[id]].serviceIdentifier == id)
    && (forall c | c in infoMap ::
          && infoMap[c].service == c
          && infoMap[c].serviceIdentifier in classMap
          && classMap[infoMap[c].serviceIdentifier] == c)
  }

  ghost predicate EntriesWellFormed(infoMap: map<ClassDecl, RpcServiceInfo>) {
    forall c | c in infoMap :: EntryBuilt(infoMap[c])
  }

  /** The method maps of an entry are the ones the validation loop builds for its class. */
  predicate EntryBuilt(info: RpcServiceInfo) {
    ParseMethods(info.service, 0, {}, map[], map[]) == Success((info.methodMap, info.methodIdentifierMap))
  }

  /** An entry built by the validation loop describes every declared method of its class once. */
  lemma EntryDescribesMethods(info: RpcServiceInfo)
    requires EntryBuilt(info)
    ensures WellFormedInfo(info)
  {
    var cls := info.service;
    ParseMethodsSucceeds(cls, 0, {}, map[], map[]);
    assert SuffixValid(cls.declaredMethods, 0, {}) <==> ValidServiceMethods(cls.declaredMethods);
    ParsedMethodsWellFormed(cls);
  }

  /** Entering a newly validated class keeps the registry consistent. */
  lemma RegisterKeepsConsistent(ids: set<int32>, classMap: map<int32, ClassDecl>, infoMap: map<ClassDecl, RpcServiceInfo>,
                                cls: ClassDecl, info: RpcServiceInfo)
    requires Consistent(ids, classMap, infoMap)
    requires cls !in infoMap && info.serviceIdentifier !in classMap
    requires info.service == cls && EntryBuilt(info)
    ensures Consistent(ids + {info.serviceIdentifier}, classMap[info.serviceIdentifier := cls], infoMap[cls := info])
  {
    var id0 := info.serviceIdentifier;
    var classMap', infoMap' := classMap[id0 := cls], infoMap[cls := info];
    forall id | id in classMap' ensures classMap'[id] in infoMap' && infoMap'[classMap'[id]].serviceIdentifier == id {
      if id != id0 {
        assert classMap'[id] == classMap[id] != cls;
      }
    }
    forall c | c in infoMap'
      ensures infoMap'[c].service == c && infoMap'[c].serviceIdentifier in classMap' && classMap'[infoMap'[c].serviceIdentifier] == c
    {
      if c != cls {
        assert infoMap[c].serviceIdentifier != id0;
      }
    }
    assert EntriesWellFormed(infoMap') by {
      forall c | c in infoMap' ensures EntryBuilt(infoMap'[c]) {
        if c != cls {
          assert infoMap'[c] == infoMap[c];
        }
      }
    }
  }

  /** Recording an implementation on an entry keeps the registry consistent: no method map changes. */
  lemma ImplUpdateKeepsConsistent(ids: set<int32>, classMap: map<int32, ClassDecl>, infoMap: map<ClassDecl, RpcServiceInfo>,
                                  cls: ClassDecl, info: RpcServiceInfo)
    requires Consistent(ids, classMap, infoMap) && cls in infoMap
    requires info.(implClass := infoMap[cls].implClass, implClassConstructor := infoMap[cls].implClassConstructor) == infoMap[cls]
    ensures Consistent(ids, classMap, infoMap[cls := info])
  {
    var infoMap' := infoMap[cls := info];
    assert IndexConsistent(ids, classMap, infoMap') by {
      forall id | id in classMap ensures classMap[id] in infoMap' && infoMap'[classMap[id]].serviceIdentifier == id {
        assert classMap[id] in infoMap;
      }
    }
    assert EntriesWellFormed(infoMap') by {
      forall c | c in infoMap' ensures EntryBuilt(infoMap'[c]) {
        assert c in infoMap;
        if c == cls {
          assert EntryBuilt(infoMap[cls]);
        }
      }
    }
  }

  /** The collector's three structures as a value. */
  datatype Registry = Registry(ids: set<int32>, classMap: map<int32, ClassDecl>, infoMap: map<ClassDecl, RpcServiceInfo>)

  /**
   * `parseServiceInterface` on values: a registered class changes nothing; otherwise the class is
   * entered when it validates, and refused with its validation error when it does not.
   */
  function RegisterStep(reg: Registry, cls: ClassDecl): (r: (Registry, Option<RegistrationError>))
    ensures r.1.None? ==> cls in r.0.infoMap && reg.infoMap.Keys <= r.0.infoMap.Keys
    ensures r.1.Some? <==> cls !in reg.infoMap && ParseServiceClassSpec(cls, reg.classMap).Failure?
    ensures r.1.Some? ==> r.0 == reg && ParseServiceClassSpec(cls, reg.classMap) == Failure(r.1.value)
  {
    if cls in reg.infoMap then (reg, None)
    else
      match ParseServiceClassSpec(cls, reg.classMap)
      case Failure(e) => (reg, Some(e))
      case Success(info) =>
        (Registry(reg.ids + {info.serviceIdentifier}, reg.classMap[info.serviceIdentifier := cls], reg.infoMap[cls := info]), None)
  }

  class RpcServiceCollector {
    var serviceIdentifierList: set<int32>
    var serviceIdentifierClassMap: map<int32, ClassDecl>
    var serviceInfoMap: map<ClassDecl, RpcServiceInfo>

    function View(): Registry
      reads this
    {
      Registry(serviceIdentifierList, serviceIdentifierClassMap, serviceInfoMap)
    }

    /** The three structures agree (see `Consistent`). */
    ghost predicate Valid()
      reads this
    {
      Consistent(serviceIdentifierList, serviceIdentifierClassMap, serviceInfoMap)
    }

    constructor ()
      ensures Valid()
      ensures serviceIdentifierList == {} && serviceIdentifierClassMap == map[] && serviceInfoMap == map[]
    {
      serviceIdentifierList := {};
      serviceIdentifierClassMap := map[];
      serviceInfoMap := map[];
    }

    /**
     * `parseServiceInterface`: an already registered class is left alone; otherwise the class is
     * validated and, only if validation succeeds, entered in all three structures.
     */
    method ParseServiceInterface(classOfService: ClassDecl) returns (error: Option<RegistrationError>)
      requires Valid()
      modifies this
      ensures Valid()
      ensures classOfService in old(serviceInfoMap) ==> error.None? && unchanged(this)
      ensures classOfService !in old(serviceInfoMap) ==>
        match ParseServiceClassSpec(classOfService, old(serviceIdentifierClassMap))
        case Failure(e) => error == Some(e) && unchanged(this)
        case Success(info) =>
          && error.None?
          && serviceIdentifierList == old(serviceIdentifierList) + {info.serviceIdentifier}
          && serviceIdentifierClassMap == old(serviceIdentifierClassMap)[info.serviceIdentifier := classOfService]
          && serviceInfoMap == old(serviceInfoMap)[classOfService := info]
      ensures (View(), error) == RegisterStep(old(View()), classOfService)
    {
      if classOfService in serviceInfoMap {
        return None;
      }
      var result := ParseServiceClass(classOfService);
      match result {
        case Failure(e) =>
          return Some(e);
        case Success(info) =>
          ParseServiceClassSucceeds(classOfService, serviceIdentifierClassMap);
          RegisterKeepsConsistent(serviceIdentifierList, serviceIdentifierClassMap, serviceInfoMap, classOfService, info);
          serviceIdentifierList := serviceIdentifierList + {info.serviceIdentifier};
          serviceIdentifierClassMap := serviceIdentifierClassMap[info.serviceIdentifier := info.service];
          serviceInfoMap := serviceInfoMap[classOfService := info];
          return None;
      }
    }

    /** `parseServiceClass`: the checks, with the loop over the declared methods. */
    method ParseServiceClass(classOfService: ClassDecl) returns (r: Result<RpcServiceInfo, RegistrationError>)
      requires Valid()
      ensures r == ParseServiceClassSpec(classOfService, serviceIdentifierClassMap)
    {
      if !classOfService.isInterface {
        return Failure(IllegalArgument("Class<" + classOfService.name + "> is not an interface."));
      }
      if classOfService.identifier.None? {
        return Failure(MissingRpcIdentifier("Class<" + classOfService.name + "> does not contain @RpcIdentifier annotation."));
      }
      var serviceIdentifier := classOfService.identifier.value;
      if serviceIdentifier in serviceIdentifierList {
        return Failure(DuplicateRpcServiceIdentifier("Class<" + classOfService.name + "> contains duplicate @RpcIdentifier value. Duplicate class: "
                                                     + serviceIdentifierClassMap[serviceIdentifier].name));
      }

      var ms := classOfService.declaredMethods;
      var methodIdentifierList: set<int32> := {};
      var rpcMethodInfoMap: map<MethodDecl, RpcMethodInfo> := map[];
      var rpcMethodInfoIdentifierMap: map<int32, RpcMethodInfo> := map[];
      var i := 0;
      while i < |ms|
        invariant 0 <= i <= |ms|
        invariant ParseMethods(classOfService, i, methodIdentifierList, rpcMethodInfoMap, rpcMethodInfoIdentifierMap)
               == ParseMethods(classOfService, 0, {}, map[], map[])
      {
        var rpcMethod := ms[i];
        var where := "Class<" + classOfService.name + ">." + rpcMethod.name;
        if rpcMethod.identifier.None? {
          return Failure(MissingRpcIdentifier(where + " does not contain @RpcIdentifier annotation."));
        }
        var methodIdentifier := rpcMethod.identifier.value;
        if methodIdentifier in methodIdentifierList {
          return Failure(DuplicateRpcMethodIdentifier(where + " contains duplicate @RpcIdentifier value."));
        }
        methodIdentifierList := methodIdentifierList + {methodIdentifier};
        var responseType := rpcMethod.returnType;
        if !responseType.MessageClass? {
          return Failure(IllegalMethodSignature(where + " does not return a protobuf message."));
        }
        if |rpcMethod.parameterTypes| != 1 || !rpcMethod.parameterTypes[0].MessageClass? {
          return Failure(IllegalMethodSignature(where + " does not accept a protobuf message as parameter."));
        }
        var rpcMethodInfo := RpcMethodInfo(rpcMethod, methodIdentifier, rpcMethod.parameterTypes[0].name, responseType.name);
        rpcMethodInfoMap := rpcMethodInfoMap[rpcMethod := rpcMethodInfo];
        rpcMethodInfoIdentifierMap := rpcMethodInfoIdentifierMap[methodIdentifier := rpcMethodInfo];
        i := i + 1;
      }
      return Success(RpcServiceInfo(classOfService, serviceIdentifier, rpcMethodInfoMap, rpcMethodInfoIdentifierMap, None, None));
    }

    /** `getServiceInfo(Class)`. */
    function GetServiceInfoByClass(classOfService: ClassDecl): (r: Option<RpcServiceInfo>)
      reads this
      ensures r.Some? <==> classOfService in serviceInfoMap
      ensures r.Some? ==> r.value == serviceInfoMap[classOfService]
    {
      if classOfService in serviceInfoMap then Some(serviceInfoMap[classOfService]) else None
    }

    /**
     * `getServiceInfo(int)`: through the id set and the id-to-class map (a missing key reads as
     * null, and null finds no entry). On a consistent registry it finds exactly the registered ids,
     * each with the entry of the class registered under it.
     */
    function GetServiceInfoById(serviceIdentifier: int): (r: Option<RpcServiceInfo>)
      reads this
      ensures Valid() && r.Some? ==> r.value.serviceIdentifier == serviceIdentifier && GetServiceInfoByClass(r.value.service) == r
      ensures Valid() ==> (r.None? <==> serviceIdentifier !in serviceIdentifierList)
    {
      if IsInt32(serviceIdentifier) && serviceIdentifier as int32 in serviceIdentifierList && serviceIdentifier as int32 in serviceIdentifierClassMap then
        GetServiceInfoByClass(serviceIdentifierClassMap[serviceIdentifier as int32])
      else
        None
    }

    /** `RpcServiceInfo.setImplClass` on the registered entry of a class. */
    method SetImplClass(classOfService: ClassDecl, implClass: ImplClassDecl)
      requires Valid() && classOfService in serviceInfoMap
      modifies this
      ensures Valid()
      ensures serviceIdentifierList == old(serviceIdentifierList) && serviceIdentifierClassMap == old(serviceIdentifierClassMap)
      ensures serviceInfoMap == old(serviceInfoMap)[classOfService := old(serviceInfoMap[classOfService]).(implClass := Some(implClass))]
    {
      ImplUpdateKeepsConsistent(serviceIdentifierList, serviceIdentifierClassMap, serviceInfoMap,
                                classOfService, serviceInfoMap[classOfService].(implClass := Some(implClass)));
      serviceInfoMap := serviceInfoMap[classOfService := serviceInfoMap[classOfService].(implClass := Some(implClass))];
    }

    /** `RpcServiceInfo.setImplClassConstructor` on the registered entry of a class. */
    method SetImplClassConstructor(classOfService: ClassDecl, kind: ConstructorKind)
      requires Valid() && classOfService in serviceInfoMap
      modifies this
      ensures Valid()
      ensures serviceIdentifierList == old(serviceIdentifierList) && serviceIdentifierClassMap == old(serviceIdentifierClassMap)
      ensures serviceInfoMap == old(serviceInfoMap)[classOfService := old(serviceInfoMap[classOfService]).(implClassConstructor := Some(kind))]
    {
      ImplUpdateKeepsConsistent(serviceIdentifierList, serviceIdentifierClassMap, serviceInfoMap,
                                classOfService, serviceInfoMap[classOfService].(implClassConstructor := Some(kind)));
      serviceInfoMap := serviceInfoMap[classOfService := serviceInfoMap[classOfService].(implClassConstructor := Some(kind))];
    }
  }

  /**
   * The two lookups agree on a consistent registry: a registered class is found again through its
   * own service identifier, and an identifier finds the entry of the class registered under it.
   */
  lemma LookupsAgree(collector: RpcServiceCollector, classOfService: ClassDecl)
    requires collector.Valid() && classOfService in collector.serviceInfoMap
    ensures var info := collector.serviceInfoMap[classOfService];
      && info.service == classOfService
      && collector.GetServiceInfoById(info.serviceIdentifier) == Some(info)
      && WellFormedInfo(info)
  {
    EntryDescribesMethods(collector.serviceInfoMap[classOfService]);
  }
}
