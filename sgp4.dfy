/** The surface of the external SGP4 library that the propagation pipeline
    uses: the element-set record, the prediction it produces, and the two
    fallible steps `Constants::from_elements` and `Constants::propagate`,
    which are supplied as functions (the perturbation model itself is not
    part of this model). */
module Sgp4 {
  import opened Wrappers
  import opened Vectors

  datatype Classification = Unclassified | Classified | Secret

  /** One element-set record (`sgp4::Elements`), with the fields the
      pipeline reads. The epoch datetime and the drag terms are omitted. */
  datatype Elements = Elements(
    objectName: Option<string>,
    internationalDesignator: Option<string>,
    noradId: nat,
    classification: Classification,
    meanMotion: real,          // revolutions per day
    eccentricity: real,
    inclination: real,
    rightAscension: real,
    argumentOfPerigee: real,
    meanAnomaly: real)

  /** Position (km) and velocity (km/s) in the inertial frame. */
  datatype Prediction = Prediction(position: Vec3, velocity: Vec3)

  datatype ElementsError = ElementsError(reason: string)

  datatype Sgp4Error = Sgp4Error(reason: string)

  /** An opaque handle for the `sgp4::Constants` derived from one record. */
  datatype Constants = Constants(handle: nat)

  /** The library, as two partial computations: deriving the propagation
      constants from a record, and propagating them to a number of minutes
      since the record's epoch. */
  datatype Library = Library(
    fromElements: Elements -> Result<Constants, ElementsError>,
    propagate: (Constants, real) -> Result<Prediction, Sgp4Error>)
}
