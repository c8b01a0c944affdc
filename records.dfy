/** The processed evidence and document records the engine reads. Only the
    keys the core looks at are modelled; a key missing from the source's
    dictionary is None (an empty nested dictionary is an Assessment with both
    fields None). */
module Records {
  import opened Common

  /** The `analisis` of an evidence item or the `clasificacion` of a document:
      `responsabilidad_sugerida` and `confianza`. */
  datatype Assessment = Assessment(suggestion: Option<string>, confidence: Option<real>)

  /** A processed visual evidence item: `procesada` and `analisis`. */
  datatype Evidence = Evidence(processed: bool, analysis: Assessment)

  /** A vehicle entity extracted from a document: `placa`, `version_doc`,
      `danos_descritos`. */
  datatype VehicleEntity = VehicleEntity(
    plate: Option<string>,
    account: Option<string>,
    damages: Option<string>)

  /** A processed document: `texto`, the `vehiculos` list under `entidades`
      (None when the document has no `entidades` key; a missing `vehiculos`
      list is the empty sequence) and `clasificacion`. */
  datatype Document = Document(
    text: Option<string>,
    entities: Option<seq<VehicleEntity>>,
    classification: Assessment)

  /** The vehicle whose circumstance is being predicted: only its `placa` is read. */
  datatype Vehicle = Vehicle(plate: Option<string>)
}
