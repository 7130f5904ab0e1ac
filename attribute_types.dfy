/**
 * The decoded shapes of class-file attributes (section 4.7 of the Java
 * Virtual Machine Specification), as src/classfile.rs declares them:
 * `AttributeInfo` and every record it is built from.
 */
module AttributeTypes {
  import opened Bytes

  /** verification_type_info (section 4.7.4), one case per tag 0 .. 8. */
  datatype VerificationTypeInfo =
    | TopVariable
    | IntegerVariable
    | FloatVariable
    | DoubleVariable
    | LongVariable
    | NullVariable
    | UninitializedThisVariable
    | ObjectVariable(cpoolIndex: u16)
    | UninitializedVariable(offset: u16)

  /** stack_map_frame (section 4.7.4). */
  datatype StackMapFrame =
    | Same(offsetDelta: u16)
    | SameLocals1StackItem(offsetDelta: u16, stackItem: VerificationTypeInfo)
    | SameLocals1StackItemExtended(offsetDelta: u16, stackItem: VerificationTypeInfo)
    | Chop(offsetDelta: u16, k: u8)
    | SameExtended(offsetDelta: u16)
    | Append(offsetDelta: u16, locals: seq<VerificationTypeInfo>)
    | Full(offsetDelta: u16, locals: seq<VerificationTypeInfo>, stack: seq<VerificationTypeInfo>)

  datatype ExceptionTableEntry = ExceptionTableEntry(startPc: u16, endPc: u16, handlerPc: u16, catchType: u16)

  datatype LineNumberEntry = LineNumberEntry(startPc: u16, lineNumber: u16)

  datatype LocalVariableTableEntry =
    LocalVariableTableEntry(startPc: u16, length: u16, nameIndex: u16, descriptorIndex: u16, index: u16)

  datatype LocalVariableTypeTableEntry =
    LocalVariableTypeTableEntry(startPc: u16, length: u16, nameIndex: u16, signatureIndex: u16, index: u16)

  datatype InnerClassInfo =
    InnerClassInfo(innerClassInfoIndex: u16, outerClassInfoIndex: u16, innerNameIndex: u16, innerClassAccessFlags: u16)

  /** annotation and element_value (sections 4.7.16 and 4.7.16.1). */
  datatype Annotation = Annotation(typeIndex: u16, elementValuePairs: seq<ElementValuePair>)

  datatype ElementValuePair = ElementValuePair(elementNameIndex: u16, value: ElementValue)

  datatype ElementValue =
    | Const(tag: u8, constValueIndex: u16)
    | EnumConst(typeNameIndex: u16, constNameIndex: u16)
    | ClassInfo(classInfoIndex: u16)
    | AnnotationValue(annotation: Annotation)
    | ArrayValue(values: seq<ElementValue>)

  /** type_annotation, target_info and type_path (section 4.7.20). */
  datatype TypeAnnotation = TypeAnnotation(
    targetType: u8,
    targetInfo: TargetInfo,
    targetPath: seq<TypePathEntry>,
    typeIndex: u16,
    elementValuePairs: seq<ElementValuePair>)

  datatype TargetInfo =
    | TypeParameter(typeParameterIndex: u8)
    | Supertype(supertypeIndex: u16)
    | TypeParameterBound(typeParameterIndex: u8, boundIndex: u8)
    | Empty
    | FormalParameter(formalParameterIndex: u8)
    | Throws(throwsTypeIndex: u16)
    | Localvar(table: seq<LocalVarTarget>)
    | Catch(exceptionTableIndex: u16)
    | Offset(offset: u16)
    | TypeArgument(offset: u16, typeArgumentIndex: u8)

  datatype LocalVarTarget = LocalVarTarget(startPc: u16, length: u16, index: u16)

  datatype TypePathEntry = TypePathEntry(typePathKind: u8, typeArgumentIndex: u8)

  datatype BootstrapMethod = BootstrapMethod(bootstrapMethodRef: u16, bootstrapArguments: seq<u16>)

  datatype MethodParameter = MethodParameter(nameIndex: u16, accessFlags: u16)

  /** The Module attribute (section 4.7.25). */
  datatype ModuleAttribute = ModuleAttribute(
    moduleNameIndex: u16,
    moduleFlags: u16,
    moduleVersionIndex: u16,
    moduleRequires: seq<ModuleRequires>,
    moduleExports: seq<ModuleExports>,
    moduleOpens: seq<ModuleOpens>,
    moduleUses: seq<u16>,
    moduleProvides: seq<ModuleProvides>)

  datatype ModuleRequires = ModuleRequires(requiresIndex: u16, requiresFlags: u16, requiresVersionIndex: u16)

  datatype ModuleExports = ModuleExports(exportsIndex: u16, exportsFlags: u16, exportsTo: seq<u16>)

  datatype ModuleOpens = ModuleOpens(opensIndex: u16, opensFlags: u16, opensTo: seq<u16>)

  datatype ModuleProvides = ModuleProvides(providesIndex: u16, providesWith: seq<u16>)

  datatype ModuleHash = ModuleHash(moduleNameIndex: u16, hash: seq<u8>)

  /** A record component (section 4.7.30) carries its own attribute list. */
  datatype RecordComponent = RecordComponent(nameIndex: u16, descriptorIndex: u16, attributes: seq<AttributeInfo>)

  /** The Code attribute (section 4.7.3) carries its own attribute list. */
  datatype CodeAttribute = CodeAttribute(
    maxStack: u16,
    maxLocals: u16,
    code: seq<u8>,
    exceptionTable: seq<ExceptionTableEntry>,
    attributes: seq<AttributeInfo>)

  /** One decoded attribute; a name the decoder does not know keeps its raw body. */
  datatype AttributeInfo =
    | ConstantValue(constantvalueIndex: u16)
    | Code(body: CodeAttribute)
    | StackMapTable(frames: seq<StackMapFrame>)
    | Exceptions(exceptionIndexTable: seq<u16>)
    | InnerClasses(innerClasses: seq<InnerClassInfo>)
    | EnclosingMethod(classIndex: u16, methodIndex: u16)
    | Synthetic
    | Signature(signatureIndex: u16)
    | SourceFile(sourcefileIndex: u16)
    | SourceDebugExtension(debugExtension: seq<u8>)
    | LineNumberTable(lineNumbers: seq<LineNumberEntry>)
    | LocalVariableTable(localVariables: seq<LocalVariableTableEntry>)
    | LocalVariableTypeTable(localVariableTypes: seq<LocalVariableTypeTableEntry>)
    | Deprecated
    | RuntimeVisibleAnnotations(annotations: seq<Annotation>)
    | RuntimeInvisibleAnnotations(annotations: seq<Annotation>)
    | RuntimeVisibleParameterAnnotations(parameterAnnotations: seq<seq<Annotation>>)
    | RuntimeInvisibleParameterAnnotations(parameterAnnotations: seq<seq<Annotation>>)
    | RuntimeVisibleTypeAnnotations(typeAnnotations: seq<TypeAnnotation>)
    | RuntimeInvisibleTypeAnnotations(typeAnnotations: seq<TypeAnnotation>)
    | AnnotationDefault(defaultValue: ElementValue)
    | BootstrapMethods(methods: seq<BootstrapMethod>)
    | MethodParameters(parameters: seq<MethodParameter>)
    | Module(moduleAttribute: ModuleAttribute)
    | ModulePackages(packages: seq<u16>)
    | ModuleMainClass(mainClassIndex: u16)
    | ModuleHashes(algorithmIndex: u16, modules: seq<ModuleHash>)
    | ModuleTarget(targetPlatformIndex: u16)
    | ModuleResolution(resolutionFlags: u16)
    | NestHost(hostClassIndex: u16)
    | NestMembers(classes: seq<u16>)
    | Record(components: seq<RecordComponent>)
    | PermittedSubclasses(classes: seq<u16>)
    | Unknown(name: string, info: seq<u8>)
}
