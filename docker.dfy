/** A container as `docker list` reports it. The package that produces the
    list is not part of this model; the record's fields are those its users
    read. */
module Docker {
  datatype Container = Container(id: string, name: string, image: string, status: string, state: string, ports: string)
}
