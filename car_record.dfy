/**
 * The vehicle record compared by the results view and produced by the
 * container's mock loader. Numeric fields are JavaScript numbers, here exact
 * reals; the technical specifications are free text such as "184 CV".
 */
module CarRecord {

  datatype Specs = Specs(
    engine: string,
    power: string,
    fuel: string,
    consumption: string,
    emissions: string,
    transmission: string,
    acceleration: string,
    topSpeed: string,
    weight: string,
    dimensions: string)

  datatype CarData = CarData(
    id: string,
    brand: string,
    model: string,
    year: int,
    image: string,
    price: real,
    depreciation: real,
    specs: Specs,
    features: seq<string>,
    rating: real,
    pros: seq<string>,
    cons: seq<string>)
}
