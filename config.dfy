/** Configuration records with the defaults the system ships with. Path
    expansion and option parsing are not part of this model. */
module Config {

  datatype IndexingConfig = IndexingConfig(
    maxFileSize: int,
    maxWorkers: int,
    batchSize: int,
    excludedExtensions: set<string>,
    excludedDirs: set<string>,
    monitoredPaths: seq<string>,
    useProcessPool: bool)

  const DefaultIndexingConfig: IndexingConfig := IndexingConfig(
    100 * 1024 * 1024,
    4,
    100,
    {".tmp", ".log", ".cache", ".DS_Store", ".pyc", ".pyo", ".so", ".dylib", ".app"},
    {".git", "__pycache__", "node_modules", ".venv", ".virtualenv", ".tox", ".pytest_cache",
     ".mypy_cache", "Library", "System", ".Trash", ".npm", ".cache"},
    ["/Users"],
    false)

  datatype EmbeddingConfig = EmbeddingConfig(
    modelName: string,
    chunkSize: int,
    chunkOverlap: int,
    similarityTopK: int,
    similarityThreshold: real)

  const DefaultEmbeddingConfig: EmbeddingConfig :=
    EmbeddingConfig("BAAI/bge-small-en-v1.5", 512, 50, 5, 0.7)

  datatype AIConfig = AIConfig(embedding: EmbeddingConfig, enableEmbeddings: bool, enableHybridSearch: bool)

  const DefaultAIConfig: AIConfig := AIConfig(DefaultEmbeddingConfig, true, true)
}
