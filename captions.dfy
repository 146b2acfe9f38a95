/**
 * The caption trees the realizer consumes. In the repository these are
 * classes of `shapeworld.captions`; here they are one closed sum type, with
 * `Other` standing for every caption class the realizer does not recognise.
 */
module Captions {

  /** One attribute of an entity, such as `color = "red"`. */
  datatype Attribute = Attribute(predtype: string, value: string)

  /** An entity description: its attributes in the order they were given. */
  datatype EntityType = EntityType(value: seq<Attribute>)

  datatype Caption =
    | Existential(restrictor: Caption, body: Caption)
    | Relation(predtype: string, value: int, reference: Caption)
      /** A caption node that is an EntityType. */
    | Entity(entityType: EntityType)
      /** A referring expression; its scope is always an EntityType. */
    | Selector(scope: EntityType)
    | Other
}
