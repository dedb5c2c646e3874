/** The decoded records of a switch-model catalogue entry, as the YAML decoder
    produces them. Only fields that are plain strings, integers, booleans or
    lists of these are kept; the date and wattage fields are not modelled. */
module Catalogue {

  /** One interface descriptor of a hardware model. */
  datatype Port = Port(portType: string, count: int, note: string)

  /** One hardware variant of a switch family. */
  datatype Model = Model(
    name: string,
    rackUnits: int,
    cpuCores: int,
    cpuRamGB: int,
    cpuFlashGB: int,
    ports: seq<Port>,
    switchChip: string,
    notes: seq<string>)

  /** A whole catalogue document: one switch family and its models. */
  datatype Definition = Definition(
    name: string,
    models: seq<Model>,
    lastEosRevisionSupported: string,
    pdfDatasheetUrl: string,
    endOfSaleAnnounced: bool,
    endOfSaleUrl: string,
    endOfSupportUrl: string,
    notes: seq<string>)

  /** The port types of a list of ports, in order. */
  function PortTypesOf(ports: seq<Port>): seq<string> {
    seq(|ports|, i requires 0 <= i < |ports| => ports[i].portType)
  }

  /** What the validator can see of a model: its name and its port types. */
  datatype Shape = Shape(name: string, portTypes: seq<string>)

  function ShapeOf(m: Model): Shape {
    Shape(m.name, PortTypesOf(m.ports))
  }

  function ShapesOf(models: seq<Model>): seq<Shape> {
    seq(|models|, i requires 0 <= i < |models| => ShapeOf(models[i]))
  }
}
